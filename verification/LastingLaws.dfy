/** The lasting laws: every write keeps them, also a turn that writes what it computed from a row that has
    changed since. */
module LastingLaws {
  import opened Wrappers
  import opened Steps
  import opened Verdicts
  import opened Fsm
  import opened Catalog
  import opened Store
  import opened Turns
  import opened SessionLaws

  // ---------------------------------------------------------------- a turn

  /** The situation in which a turn commits: it computed its writes from `seen`. */
  ghost predicate TurnFits(s: Session, seen: Session, at: nat, turn: Turn) {
    && s.row.status == Active && seen.row.status == Active
    && Grows(seen, s)
    && s.row.version == seen.row.version
    && at == NextSeq(s)
    && !IsReplay(s, turn.turnId)
    && (turn.judge == Client <==> turn.reply.Some?)
  }

  /** A turn's writes, column by column. */
  ghost predicate TurnWritten(s: Session, seen: Row, t: Session, at: nat, turn: Turn) {
    && t.messages == MessagesAfter(s, seen, at, turn)
    && t.gates == s.gates[seen.step := GateRowAfter(s, seen, turn)]
    && t.calls == s.calls + [CallOf(seen, at, turn)]
    && t.trail == s.trail + [turn.verdict]
    && t.switches == s.switches && t.bumps == s.bumps
    && StateOf(t.row) == Reloaded(NextState(seen, turn))
    && t.row.stepIndex == StepIndex(t.row.step)
    && t.row.version == seen.version + 1
    && SameIdentity(s.row, t.row)
    && t.row.model == s.row.model && t.row.byok == s.row.byok
  }

  function MessagesAfter(s: Session, seen: Row, at: nat, turn: Turn): map<nat, Message> {
    var m := s.messages[at := AnswerOf(seen, turn)];
    if turn.reply.Some? then m[at + 1 := Message(Coach, seen.step, turn.reply.value, None, seen.model)] else m
  }

  function GateRowAfter(s: Session, seen: Row, turn: Turn): GateRow {
    UpsertGate(s, seen.step, turn.verdict, NextState(seen, turn).attempts, turn.judge, turn.now).gates[seen.step]
  }

  lemma RecordTurnWrites(s: Session, seen: Row, at: nat, turn: Turn)
    ensures TurnWritten(s, seen, RecordTurn(s, seen, at, turn), at, turn)
  {
  }

  lemma InsertKeepsNumbers(s: Session, t: Session, at: nat, m: Message)
    requires Transcript(s) && at == NextSeq(s) && t.messages == s.messages[at := m]
    ensures at == |s.messages| + 1 == |t.messages| && at !in s.messages
    ensures forall k :: k in t.messages <==> 1 <= k <= |t.messages|
  {
    NextSeqIsCount(s);
    assert |t.messages| == |s.messages| + 1;
  }

  lemma InsertKeepsTranscript(s: Session, t: Session, at: nat, m: Message)
    requires Transcript(s) && at == NextSeq(s) && MayInsert(s, at, m)
    requires t.messages == s.messages[at := m]
    requires m.role == Coach ==> m.turnId == None
    ensures Transcript(t) && |t.messages| == |s.messages| + 1 && NextSeq(t) == at + 1
  {
    InsertKeepsNumbers(s, t, at, m);
    assert forall k :: k in s.messages ==> !SameTurn(s.messages[k], m) && !SameTurn(m, s.messages[k]);
    assert Transcript(t);
    NextSeqIsCount(t);
  }

  lemma TurnKeepsTranscript(s: Session, seen: Row, t: Session, at: nat, turn: Turn)
    requires Transcript(s) && at == NextSeq(s) && !IsReplay(s, turn.turnId)
    requires t.messages == MessagesAfter(s, seen, at, turn)
    ensures Transcript(t)
    ensures |t.messages| == |s.messages| + if turn.reply.Some? then 2 else 1
  {
    NextSeqIsCount(s);
    var mid := InsertMessage(s, at, AnswerOf(seen, turn));
    InsertKeepsTranscript(s, mid, at, AnswerOf(seen, turn));
    if turn.reply.Some? {
      InsertKeepsTranscript(mid, t, at + 1, Message(Coach, seen.step, turn.reply.value, None, seen.model));
    } else {
      assert t.messages == mid.messages;
    }
  }

  lemma AnswerKeepsAnswers(s: Session, seen: Row, t: Session, at: nat, turn: Turn)
    requires CallsMatchAnswers(s) && forall k :: k in s.messages ==> k < at
    requires t.messages == s.messages[at := AnswerOf(seen, turn)]
    requires t.calls == s.calls + [CallOf(seen, at, turn)]
    ensures CallsMatchAnswers(t)
  {
    forall i | 0 <= i < |t.calls| ensures Answers(t, t.calls[i]) {
      if i < |s.calls| { assert Answers(s, s.calls[i]); }
    }
    forall i, j | 0 <= i < j < |t.calls| ensures t.calls[i].answerSeq < t.calls[j].answerSeq {
      assert Answers(s, s.calls[i]);
    }
    forall k | k in t.messages && t.messages[k].role == User
      ensures exists i :: 0 <= i < |t.calls| && t.calls[i].answerSeq == k
    {
      if k == at {
        assert t.calls[|s.calls|].answerSeq == k;
      } else {
        var i :| 0 <= i < |s.calls| && s.calls[i].answerSeq == k;
        assert t.calls[i].answerSeq == k;
      }
    }
  }

  lemma CoachKeepsAnswers(s: Session, t: Session, at: nat, m: Message)
    requires CallsMatchAnswers(s) && at !in s.messages && m.role == Coach
    requires t.messages == s.messages[at := m] && t.calls == s.calls
    ensures CallsMatchAnswers(t)
  {
    forall i | 0 <= i < |t.calls| ensures Answers(t, t.calls[i]) {
      assert Answers(s, s.calls[i]);
    }
    forall k | k in t.messages && t.messages[k].role == User
      ensures exists i :: 0 <= i < |t.calls| && t.calls[i].answerSeq == k
    {
      assert k in s.messages && s.messages[k].role == User;
    }
  }

  lemma TurnKeepsAnswers(s: Session, seen: Row, t: Session, at: nat, turn: Turn)
    requires CallsMatchAnswers(s) && forall k :: k in s.messages ==> k < at
    requires t.messages == MessagesAfter(s, seen, at, turn) && t.calls == s.calls + [CallOf(seen, at, turn)]
    ensures CallsMatchAnswers(t)
  {
    var mid := s.(messages := s.messages[at := AnswerOf(seen, turn)], calls := t.calls);
    AnswerKeepsAnswers(s, seen, mid, at, turn);
    if turn.reply.Some? {
      CoachKeepsAnswers(mid, t, at + 1, Message(Coach, seen.step, turn.reply.value, None, seen.model));
    } else {
      assert t.messages == mid.messages;
    }
  }

  lemma TurnKeepsPairs(s: Session, t: Session, turn: Turn)
    requires ClientTurnsPair(s) && |t.calls| == |s.calls| + 1 && s.calls <= t.calls
    requires t.calls[|s.calls|].judge == turn.judge && (turn.judge == Client ==> turn.reply.Some?)
    requires |t.messages| == |s.messages| + if turn.reply.Some? then 2 else 1
    ensures ClientTurnsPair(t)
  {
    if AllClient(t.calls) {
      assert t.calls[|s.calls|].judge == Client;
      assert forall i :: 0 <= i < |s.calls| ==> s.calls[i] == t.calls[i];
    }
  }

  // ---------------------------------------------------------------- how a step is earned

  lemma PassesStayLogged(a: seq<Call>, b: seq<Call>, step: Step)
    requires a <= b && PassLogged(a, step)
    ensures PassLogged(b, step)
  {
    var i :| 0 <= i < |a| && a[i].step == step && a[i].verdict == Pass;
    assert b[i] == a[i];
  }

  /** How far a verdict moves an active state. */
  lemma VerdictMovesOn(before: SessionState, v: GateVerdict)
    requires before.status == Active
    ensures var state := ApplyVerdict(before, v).state;
            && (v.verdict != Pass ==> state.step == before.step && state.status == Active)
            && (v.verdict == Pass && state.status == Completed ==> state.step == before.step)
            && (v.verdict == Pass && state.status == Active ==> NextStep(before.step) == Some(state.step))
  {
  }

  lemma RowMovesOn(seen: Row, t: Row, turn: Turn)
    requires seen.status == Active && StateOf(t) == Reloaded(NextState(seen, turn))
    ensures TrackOf(t.step) == TrackOf(seen.step)
    ensures StepsBehind(t) == StepIndex(seen.step) + if turn.verdict.verdict == Pass then 1 else 0
  {
    VerdictMovesOn(StateOf(seen), turn.verdict);
    assert t.step == StateOf(t).step && t.status == StateOf(t).status;
    NextIsOneOn(seen.step);
  }

  /** A turn may compute its writes from an older row; what that row had earned is still logged. */
  lemma TurnEarnsStep(s: Session, seen: Session, t: Session, at: nat, turn: Turn)
    requires StepIsEarned(seen) && Grows(seen, s) && seen.row.status == Active
    requires TurnWritten(s, seen.row, t, at, turn)
    ensures StepIsEarned(t)
  {
    RowMovesOn(seen.row, t.row, turn);
    forall step | TrackOf(step) == t.row.track && StepIndex(step) < StepsBehind(t.row) ensures PassLogged(t.calls, step) {
      if StepIndex(step) < StepIndex(seen.row.step) {
        PassesStayLogged(seen.calls, t.calls, step);
      } else {
        IndexDeterminesStep(step, seen.row.step);
        assert t.calls[|s.calls|].step == step && t.calls[|s.calls|].verdict == Pass;
      }
    }
  }

  lemma SameCallsSameEarned(s: Session, t: Session)
    requires StepIsEarned(s) && t.calls == s.calls && t.row.track == s.row.track && t.row.step == s.row.step
    requires t.row.status == s.row.status && t.row.stepIndex == s.row.stepIndex
    ensures StepIsEarned(t)
  {
  }

  // ---------------------------------------------------------------- every write keeps them

  lemma TurnKeepsRecord(s: Session, seen: Row, t: Session, at: nat, turn: Turn)
    requires CallsRecorded(s) && TurnWritten(s, seen, t, at, turn)
    ensures CallsRecorded(t)
  {
  }

  lemma TurnGrows(s: Session, seen: Row, t: Session, at: nat, turn: Turn)
    requires TurnWritten(s, seen, t, at, turn) && s.row.status == Active
    requires at !in s.messages && at + 1 !in s.messages
    ensures Grows(s, t)
  {
  }

  lemma TurnKeepsTransport(s: Session, seen: Row, t: Session, at: nat, turn: Turn)
    requires Transport(s.row) && TurnWritten(s, seen, t, at, turn)
    ensures Transport(t.row)
  {
  }

  /** A turn keeps the lasting laws whatever became of the row it saw. */
  lemma TurnKeepsLasting(s: Session, seen: Session, at: nat, turn: Turn)
    requires Lasting(s) && Lasting(seen) && TurnFits(s, seen, at, turn)
    ensures Lasting(RecordTurn(s, seen.row, at, turn)) && Grows(s, RecordTurn(s, seen.row, at, turn))
  {
    var t := RecordTurn(s, seen.row, at, turn);
    RecordTurnWrites(s, seen.row, at, turn);
    NextSeqIsCount(s);
    TurnKeepsTranscript(s, seen.row, t, at, turn);
    TurnKeepsAnswers(s, seen.row, t, at, turn);
    TurnKeepsRecord(s, seen.row, t, at, turn);
    TurnEarnsStep(s, seen, t, at, turn);
    TurnKeepsTransport(s, seen.row, t, at, turn);
    TurnKeepsPairs(s, t, turn);
    TurnGrows(s, seen.row, t, at, turn);
  }

  lemma ReplyKeepsMessages(s: Session, at: nat, m: Message)
    requires Transcript(s) && CallsMatchAnswers(s) && at == NextSeq(s) && m.role == Coach && m.turnId == None
    ensures Transcript(InsertMessage(s, at, m)) && CallsMatchAnswers(InsertMessage(s, at, m))
    ensures at !in s.messages
  {
    NextSeqIsCount(s);
    InsertKeepsTranscript(s, InsertMessage(s, at, m), at, m);
    CoachKeepsAnswers(s, InsertMessage(s, at, m), at, m);
  }

  /** So does the reply to a server turn, */
  lemma ReplyKeepsLasting(s: Session, at: nat, m: Message)
    requires Lasting(s) && at == NextSeq(s) && m.role == Coach && m.turnId == None && !AllClient(s.calls)
    ensures Lasting(InsertMessage(s, at, m)) && at !in s.messages
  {
    ReplyKeepsMessages(s, at, m);
    SameCallsSameEarned(s, InsertMessage(s, at, m));
  }

  lemma SameMessagesKeepAnswers(s: Session, t: Session)
    requires CallsMatchAnswers(s) && t.calls == s.calls && t.messages == s.messages
    ensures CallsMatchAnswers(t)
  {
    forall i | 0 <= i < |t.calls| ensures Answers(t, t.calls[i]) {
      assert Answers(s, s.calls[i]);
    }
  }

  /** a model switch, */
  lemma SwitchKeepsLasting(s: Session, version: nat, entry: Entry, now: int)
    requires Lasting(s) && ByKey(Some(entry.key)) == Some(entry)
    ensures Lasting(SetCoachModel(s, version, entry, now))
  {
    SameMessagesKeepAnswers(s, SetCoachModel(s, version, entry, now));
    SameCallsSameEarned(s, SetCoachModel(s, version, entry, now));
  }

  /** and the flush of a reflected row, to whatever version. */
  lemma FollowUpKeepsLasting(s: Session, version: nat)
    requires Lasting(s)
    ensures Lasting(Followed(s, version)) && Grows(s, Followed(s, version))
  {
    SameMessagesKeepAnswers(s, Followed(s, version));
    SameCallsSameEarned(s, Followed(s, version));
  }
}
