/** The exact laws: a turn keeps them exactly when nothing is lost between the row it was computed from and
    the row it changes, and every other write keeps them always; a reflected row keeps the order of
    versions exactly when it lowers none. */
module ExactLaws {
  import opened Wrappers
  import opened Steps
  import opened Verdicts
  import opened Fsm
  import opened Catalog
  import opened Store
  import opened Turns
  import opened SessionLaws
  import opened LastingLaws

  // ---------------------------------------------------------------- the row and the log

  lemma TurnKeepsRow(s: Session, t: Session, at: nat, turn: Turn)
    requires RowFoldsLog(s) && TurnWritten(s, s.row, t, at, turn)
    ensures RowFoldsLog(t)
    ensures Replayed(t) == ApplyVerdict(Replayed(s), turn.verdict).state
  {
    FoldSnoc(s.row.track, s.trail, turn.verdict);
    ReloadCommutes(Replayed(s), turn.verdict);
  }

  lemma TurnKeepsClimb(s: Session, t: Session, at: nat, turn: Turn)
    requires RowFoldsLog(s) && CallsClimb(s) && s.row.status == Active && TurnWritten(s, s.row, t, at, turn)
    ensures CallsClimb(t)
  {
    forall i | 0 <= i < |t.calls| ensures CallInPlace(t, i) {
      if i < |s.calls| {
        assert t.trail[..i] == s.trail[..i];
        assert CallInPlace(s, i);
      } else {
        assert t.trail[..i] == s.trail;
        assert StateOf(s.row) == Reloaded(Replayed(s));
      }
    }
  }

  // ---------------------------------------------------------------- the gate table

  /** Where an active session stands on its ladder. */
  lemma CurrentStepIsPassCount(s: Session)
    requires RowFoldsLog(s)
    ensures TrackOf(s.row.step) == s.row.track
    ensures s.row.status == Active ==> StepIndex(s.row.step) == Passes(s.trail) < |StepsFor(s.row.track)|
    ensures s.row.status == Completed ==> Passes(s.trail) >= |StepsFor(s.row.track)| == StepIndex(s.row.step) + 1
  {
    StaysOnLadder(s.row.track, s.trail);
    ProgressClosedForm(s.row.track, s.trail);
    assert StateOf(s.row).step == Replayed(s).step && StateOf(s.row).status == Replayed(s).status;
  }

  lemma PassesSnoc(run: seq<GateVerdict>, v: GateVerdict)
    ensures Passes(run + [v]) == Passes(run) + if v.verdict == Pass then 1 else 0
  {
    assert (run + [v])[..|run|] == run;
  }

  lemma TurnKeepsOtherGates(s: Session, t: Session, at: nat, turn: Turn, step: Step)
    requires TurnWritten(s, s.row, t, at, turn) && |s.calls| == |s.trail|
    requires step != s.row.step && Summarises(s, step)
    ensures Summarises(t, step)
  {
    LaterCallKeepsSummary(s, t, step, CallOf(s.row, at, turn), turn.verdict);
  }

  lemma LaterCallKeepsSummary(s: Session, t: Session, step: Step, c: Call, v: GateVerdict)
    requires Summarises(s, step) && t.calls == s.calls + [c] && t.trail == s.trail + [v] && c.step != step
    requires t.row.track == s.row.track && step in t.gates && t.gates[step] == s.gates[step]
    ensures Summarises(t, step)
  {
    var first: nat :| IsFirstAt(s.calls, step, first) && s.gates[step].judge == s.calls[first].judge;
    var last: nat :| IsLastAt(s.calls, step, last) && RowOfCall(s, s.gates[step], last);
    assert IsFirstAt(t.calls, step, first);
    assert IsLastAt(t.calls, step, last);
    assert t.trail[..last + 1] == s.trail[..last + 1];
    assert RowOfCall(t, t.gates[step], last);
  }

  lemma TurnKeepsCurrentGate(s: Session, t: Session, at: nat, turn: Turn)
    requires TurnWritten(s, s.row, t, at, turn) && RowFoldsLog(s)
    requires s.row.step in s.gates ==> Summarises(s, s.row.step)
    requires s.row.step !in s.gates ==> forall i :: 0 <= i < |s.calls| ==> s.calls[i].step != s.row.step
    ensures Summarises(t, s.row.step)
  {
    var step, n := s.row.step, |s.calls|;
    if step in s.gates {
      var first: nat :| IsFirstAt(s.calls, step, first) && s.gates[step].judge == s.calls[first].judge;
      assert IsFirstAt(t.calls, step, first);
      assert t.gates[step].judge == t.calls[first].judge;
    } else {
      assert IsFirstAt(t.calls, step, n);
      assert t.gates[step].judge == t.calls[n].judge;
    }
    assert IsLastAt(t.calls, step, n);
    assert t.trail[..n + 1] == t.trail;
    TurnKeepsRow(s, t, at, turn);
    assert Replayed(t).attempts == StateOf(t.row).attempts;
    assert RowOfCall(t, t.gates[step], n);
  }

  lemma TurnKeepsSummaries(s: Session, t: Session, at: nat, turn: Turn)
    requires TurnWritten(s, s.row, t, at, turn) && RowFoldsLog(s) && GatesSummarise(s)
    ensures forall step :: step in t.gates ==> Summarises(t, step)
    ensures forall i :: 0 <= i < |t.calls| ==> t.calls[i].step in t.gates
  {
    forall step | step in t.gates ensures Summarises(t, step) {
      if step == s.row.step {
        TurnKeepsCurrentGate(s, t, at, turn);
      } else {
        TurnKeepsOtherGates(s, t, at, turn, step);
      }
    }
  }

  lemma PassScoresUpdate(gates: map<Step, GateRow>, step: Step, g: GateRow)
    requires step in gates ==> gates[step].verdict != Pass
    ensures PassScores(gates[step := g])
         == if g.verdict == Pass then PassScores(gates)[step := g.score] else PassScores(gates)
  {
    var updated := gates[step := g];
    forall k | k in updated && updated[k].verdict == Pass
      ensures k in PassScores(updated)
    {
    }
  }

  lemma ScoresAfter(state: SessionState, v: GateVerdict)
    requires state.status == Active
    ensures ApplyVerdict(state, v).state.scores
         == if v.verdict == Pass then state.scores[state.step := v.score] else state.scores
  {
  }

  lemma TurnKeepsScores(s: Session, t: Session, at: nat, turn: Turn)
    requires TurnWritten(s, s.row, t, at, turn) && RowFoldsLog(s) && GatesSummarise(s) && s.row.status == Active
    ensures PassScores(t.gates) == Replayed(t).scores
  {
    CurrentStepIsPassCount(s);
    TurnKeepsRow(s, t, at, turn);
    assert Replayed(s).step == StateOf(s.row).step && Replayed(s).status == StateOf(s.row).status;
    ScoresAfter(Replayed(s), turn.verdict);
    PassScoresUpdate(s.gates, s.row.step, GateRowAfter(s, s.row, turn));
  }

  lemma TurnKeepsGates(s: Session, t: Session, at: nat, turn: Turn)
    requires TurnWritten(s, s.row, t, at, turn) && RowFoldsLog(s) && GatesSummarise(s) && s.row.status == Active
    ensures GatesSummarise(t)
  {
    TurnKeepsSummaries(s, t, at, turn);
    TurnKeepsScores(s, t, at, turn);
    CurrentStepIsPassCount(s);
    PassesSnoc(s.trail, turn.verdict);
    forall step | TrackOf(step) == t.row.track && StepIndex(step) < Passes(t.trail) ensures step in t.gates {
      if StepIndex(step) == Passes(s.trail) { IndexDeterminesStep(step, s.row.step); }
    }
    forall step | step in t.gates
      ensures TrackOf(step) == t.row.track && StepIndex(step) <= Passes(t.trail)
      ensures t.gates[step].verdict == Pass <==> StepIndex(step) < Passes(t.trail)
    {
      if step != s.row.step && StepIndex(step) == Passes(s.trail) { IndexDeterminesStep(step, s.row.step); }
    }
  }

  lemma TurnKeepsExact(s: Session, t: Session, at: nat, turn: Turn)
    requires Exact(s) && s.row.status == Active && TurnWritten(s, s.row, t, at, turn)
    ensures Exact(t)
  {
    TurnKeepsRow(s, t, at, turn);
    TurnKeepsClimb(s, t, at, turn);
    TurnKeepsGates(s, t, at, turn);
  }

  // ---------------------------------------------------------------- the other writes

  ghost predicate SameLog(s: Session, t: Session) {
    t.calls == s.calls && t.trail == s.trail && t.gates == s.gates && t.row.track == s.row.track
  }

  lemma SameLogKeepsSummary(s: Session, t: Session, step: Step)
    requires SameLog(s, t) && Summarises(s, step)
    ensures Summarises(t, step)
  {
    var last: nat :| IsLastAt(s.calls, step, last) && RowOfCall(s, s.gates[step], last);
    assert RowOfCall(t, t.gates[step], last);
  }

  lemma SameLogKeepsClimb(s: Session, t: Session)
    requires SameLog(s, t) && CallsClimb(s)
    ensures CallsClimb(t)
  {
    forall i | 0 <= i < |t.calls| ensures CallInPlace(t, i) {
      assert CallInPlace(s, i);
    }
  }

  lemma SameLogKeepsGates(s: Session, t: Session)
    requires SameLog(s, t) && GatesSummarise(s)
    ensures GatesSummarise(t)
  {
    forall step | step in t.gates ensures Summarises(t, step) {
      SameLogKeepsSummary(s, t, step);
    }
    assert Replayed(t) == Replayed(s);
  }

  /** Nothing but the transcript, the model and the version changes. */
  lemma SameLogKeepsExact(s: Session, t: Session)
    requires Exact(s) && SameLog(s, t) && StateOf(t.row) == StateOf(s.row) && t.row.stepIndex == s.row.stepIndex
    ensures Exact(t)
  {
    SameLogKeepsClimb(s, t);
    SameLogKeepsGates(s, t);
    assert Replayed(t) == Replayed(s);
  }

  // ---------------------------------------------------------------- a turn computed from another row

  /** The row after a turn is the fold of the log with its verdict if and only if the row that the turn was
      computed from lost nothing of the row it changes. */
  lemma TurnFoldsIff(s: Session, seen: Row, t: Session, at: nat, turn: Turn)
    requires RowFoldsLog(s) && TurnWritten(s, seen, t, at, turn)
    requires s.row.status == Active && seen.status == Active && TrackOf(s.row.step) == TrackOf(seen.step)
    ensures RowFoldsLog(t) <==> NothingLost(StateOf(s.row), StateOf(seen), turn.verdict)
  {
    FoldSnoc(s.row.track, s.trail, turn.verdict);
    ReloadCommutes(Replayed(s), turn.verdict);
    SameNextRowIff(StateOf(s.row), StateOf(seen), turn.verdict);
    assert CallsRecorded(t);
  }

  /** And what it writes is what it would write computed from the row as it is, under the same condition. */
  lemma SameRecordIff(s: Session, seen: Row, at: nat, turn: Turn)
    requires SameIdentity(seen, s.row) && seen.version == s.row.version && turn.reply == None
    requires s.row.status == Active && seen.status == Active && TrackOf(s.row.step) == TrackOf(seen.step)
    ensures RecordTurn(s, seen, at, turn) == RecordTurn(s, s.row, at, turn)
       <==> NothingLost(StateOf(s.row), StateOf(seen), turn.verdict)
  {
    SameNextRowIff(StateOf(s.row), StateOf(seen), turn.verdict);
    if NothingLost(StateOf(s.row), StateOf(seen), turn.verdict) {
      SameRecord(s, seen, at, turn);
    } else {
      RecordedState(s, seen, at, turn);
      RecordedState(s, s.row, at, turn);
    }
  }

  lemma SameRecord(s: Session, seen: Row, at: nat, turn: Turn)
    requires SameIdentity(seen, s.row) && seen.version == s.row.version && turn.reply == None && seen.step == s.row.step
    requires Reloaded(NextState(seen, turn)) == Reloaded(NextState(s.row, turn))
    ensures RecordTurn(s, seen, at, turn) == RecordTurn(s, s.row, at, turn)
  {
    var a, b := NextState(seen, turn), NextState(s.row, turn);
    assert a.status == Reloaded(a).status && a.step == Reloaded(a).step;
    assert a.attempts == Reloaded(a).attempts && a.hintLevel == Reloaded(a).hintLevel;
    assert b.status == Reloaded(b).status && b.step == Reloaded(b).step;
    assert b.attempts == Reloaded(b).attempts && b.hintLevel == Reloaded(b).hintLevel;
  }

  lemma RecordedState(s: Session, seen: Row, at: nat, turn: Turn)
    ensures StateOf(RecordTurn(s, seen, at, turn).row) == Reloaded(NextState(seen, turn))
  {
  }

  // ---------------------------------------------------------------- all laws together

  /** A committed turn keeps the laws, and the session grows by it; the exact laws, when it writes what it
      would write from the row as it is. */
  lemma TurnKeepsSession(kind: Kind, s: Session, seen: Session, at: nat, turn: Turn)
    requires SessionOk(kind, s) && Lasting(seen) && TurnFits(s, seen, at, turn)
    requires kind != AnyRun ==> RecordTurn(s, seen.row, at, turn) == RecordTurn(s, s.row, at, turn)
    ensures SessionOk(kind, RecordTurn(s, seen.row, at, turn))
    ensures Evolves(kind, s, RecordTurn(s, seen.row, at, turn))
  {
    TurnKeepsLasting(s, seen, at, turn);
    RecordTurnWrites(s, seen.row, at, turn);
    if kind != AnyRun {
      RecordTurnWrites(s, s.row, at, turn);
      TurnKeepsExact(s, RecordTurn(s, s.row, at, turn), at, turn);
    }
  }

  /** A reply to a server turn keeps every law. */
  lemma ReplyKeepsSession(kind: Kind, s: Session, at: nat, m: Message)
    requires SessionOk(kind, s) && at == NextSeq(s) && m.role == Coach && m.turnId == None
    requires !AllClient(s.calls)
    ensures SessionOk(kind, InsertMessage(s, at, m)) && Evolves(kind, s, InsertMessage(s, at, m))
    ensures SameState(s, InsertMessage(s, at, m))
  {
    ReplyKeepsLasting(s, at, m);
    ReplyEvolves(kind, s, at, m);
    if kind != AnyRun { SameLogKeepsExact(s, InsertMessage(s, at, m)); }
  }

  lemma ReplyEvolves(kind: Kind, s: Session, at: nat, m: Message)
    requires at !in s.messages
    ensures Evolves(kind, s, InsertMessage(s, at, m)) && SameState(s, InsertMessage(s, at, m))
    ensures VersionCounts(s) ==> VersionCounts(InsertMessage(s, at, m))
  {
  }

  /** A model switch keeps every law. */
  lemma SwitchKeepsSession(kind: Kind, s: Session, entry: Entry, now: int)
    requires SessionOk(kind, s) && s.row.status == Active && ByKey(Some(entry.key)) == Some(entry)
    ensures SessionOk(kind, SetCoachModel(s, s.row.version, entry, now))
    ensures Evolves(kind, s, SetCoachModel(s, s.row.version, entry, now))
  {
    SwitchKeepsLasting(s, s.row.version, entry, now);
    if kind != AnyRun { SameLogKeepsExact(s, SetCoachModel(s, s.row.version, entry, now)); }
  }

  /** The flush of a reflected row keeps the lasting and the exact laws, whatever version it writes. At its
      turn's commit the version was one less than what it writes. It keeps the order of versions if and
      only if it lowers none, that is, if the version has risen by at most one since. */
  lemma FollowUpKeepsOrderIff(s: Session, version: nat)
    requires SessionOk(OrderedRun, s) && version <= s.row.version + 1
    ensures SessionOk(LosslessRun, Followed(s, version)) && Evolves(LosslessRun, s, Followed(s, version))
    ensures VersionCounts(Followed(s, version)) <==> version >= s.row.version
    ensures Ordered(s, Followed(s, version)) <==> version >= s.row.version
  {
    FollowUpKeepsSession(LosslessRun, s, version);
  }

  lemma FollowUpKeepsSession(kind: Kind, s: Session, version: nat)
    requires SessionOk(kind, s)
    requires kind == OrderedRun ==> s.row.version <= version <= s.row.version + 1
    ensures SessionOk(kind, Followed(s, version)) && Evolves(kind, s, Followed(s, version))
  {
    FollowUpKeepsLasting(s, version);
    if kind != AnyRun { SameLogKeepsExact(s, Followed(s, version)); }
  }
}
