/** Posting a recorded answer again, at any later moment of any run. */
module Reposts {
  import opened Wrappers
  import opened Steps
  import opened Verdicts
  import opened Fsm
  import opened Gate
  import opened Catalog
  import opened Store
  import opened Quotas
  import opened Turns
  import opened SessionLaws
  import opened TurnLaws
  import opened Protocol
  import opened ProtocolRuns
  import opened ProtocolGrowth

  /** At the n-th moment of the run this session holds the turn id. */
  ghost predicate RecordedBy(env: Env, run: seq<Action>, n: nat, sid: Sid, turn: TurnId) {
    IsRun(env, run) && n <= |run| && sid in At(env, run, n).db && HasTurn(At(env, run, n).db[sid], turn)
  }

  /** A recorded turn id stays, as long as its session does. */
  lemma {:induction false} TurnIdsStay(env: Env, run: seq<Action>, n: nat, sid: Sid, turn: TurnId)
    requires RecordedBy(env, run, n, sid, turn) && sid in After(env, run).db
    ensures HasTurn(After(env, run).db[sid], turn)
  {
    RunsAreSteady(AnyRun, env, run, n);
    var a, b := At(env, run, n).db[sid], After(env, run).db[sid];
    var k :| k in a.messages && a.messages[k].turnId == Some(turn);
    assert b.messages[k] == a.messages[k];
  }

  // ---------------------------------------------------------------- the browser path

  /** Past the route's checks a re-post of a recorded turn replays and writes nothing at every later
      moment of every run at which the session exists, also after completion. */
  lemma {:induction false} ByokRepostsReplay(env: Env, run: seq<Action>, n: nat, sid: Sid, step: Step, turn: Turn)
    requires turn.turnId.Some? && RecordedBy(env, run, n, sid, turn.turnId.value) && sid in After(env, run).db
    ensures var db := After(env, run).db; ByokTurn(db, sid, step, turn) == (db, Ok(Replay(sid, db[sid].row)))
  {
    TurnIdsStay(env, run, n, sid, turn.turnId.value);
  }

  /** byok-record itself promises the replay of every re-post. It never writes, and it replays if and only
      if the session is still a browser session and its owner is not capped or still under the cap: the
      quota is checked before the turn id is looked up. */
  lemma {:induction false} ByokRecordReplaysIff(env: Env, run: seq<Action>, n: nat, user: string, sid: Sid, step: Step, turn: Turn)
    requires turn.turnId.Some? && RecordedBy(env, run, n, sid, turn.turnId.value) && sid in After(env, run).db
    requires After(env, run).db[sid].row.user == user
    ensures var db := After(env, run).db; var (db', r) := ByokPost(env, db, user, sid, step, turn);
            && db' == db
            && (r == Ok(Replay(sid, db[sid].row)) <==> db[sid].row.byok && (user in env.capped ==> |db[sid].messages| < env.cap))
            && (r.Ok? ==> r.value.replayed)
            && (db[sid].row.byok && user in env.capped && |db[sid].messages| >= env.cap ==> r == Err(QuotaExceeded))
  {
    var db := After(env, run).db;
    TurnIdsStay(env, run, n, sid, turn.turnId.value);
    RunKeepsInv(AnyRun, env, run);
    NextSeqIsCount(db[sid]);
    MarkedPost(env, db, user, sid, step, turn);
  }

  lemma MarkedPost(env: Env, db: Db, user: string, sid: Sid, step: Step, turn: Turn)
    requires sid in db && db[sid].row.user == user && IsReplay(db[sid], turn.turnId)
    ensures ByokPost(env, db, user, sid, step, turn)
         == (db, if !db[sid].row.byok then Err(NotByok)
                 else if user in env.capped && NextSeq(db[sid]) > env.cap then Err(QuotaExceeded)
                 else Ok(Replay(sid, db[sid].row)))
  {
  }

  const TWO := Env({"u"}, 2)
  const FIRST := NewSession("u", "p", "o", Problem, "r", Some(OrGlm52), true, 0)
  const ANSWER := Turn("answer", Some(7), Client, Valid, RetryFailsafe("hint"), Some("reply"), 0)

  /** At a cap of two messages the re-post of the first recorded turn is refused by the quota. */
  lemma TheQuotaHidesAReplay()
    ensures var (db, first) := ByokPost(TWO, map[1 := FIRST], "u", 1, Clarify, ANSWER);
            first.Ok? && !first.value.replayed && ByokPost(TWO, db, "u", 1, Clarify, ANSWER) == (db, Err(QuotaExceeded))
  {
    LadderPosition(Problem, 0);
    var s := RecordTurn(FIRST, FIRST.row, 1, ANSWER);
    assert NextSeq(FIRST) == 1;
    assert s.messages.Keys == {1, 2};
    assert NextSeq(s) == 3;
  }

  // ---------------------------------------------------------------- the server path

  /** While the session is active every later re-post to the server replays and writes nothing. Once it is
      completed the session is no longer looked at: the re-post is recorded again if and only if the
      session it lands on, another active one or a fresh one, does not hold the turn id and its row, as
      it is held, stands active at the submitted step and is of the current version. */
  lemma {:induction false} ServerReposts(env: Env, run: seq<Action>, n: nat, sid: Sid, cached: Option<(Sid, Row)>, minted: Sid,
                                         req: TurnReq, verdict: GateVerdict, outcome: GateOutcome, now: int)
    requires req.turnId.Some? && RecordedBy(env, run, n, sid, req.turnId.value) && sid in After(env, run).db
    requires minted !in After(env, run).db
    requires var row := After(env, run).db[sid].row; row.user == req.user && row.problem == req.problem
    ensures var db := After(env, run).db; var (db', r) := ServerTurn(db, cached, minted, req, verdict, outcome, now);
            && (db[sid].row.status == Active ==> db' == db && r == Ok(Replay(sid, Seen(cached, sid, db[sid].row))))
            && (r.Ok? && !r.value.replayed <==>
                  && db[sid].row.status == Completed
                  && Records(SessionFor(db, req, now), RowSeen(db, cached, req, now), req.step,
                             ServerTurnOf(req, verdict, outcome, now)))
            && (r.Err? || r.value.replayed ==> db' == db)
  {
    var db := After(env, run).db;
    TurnIdsStay(env, run, n, sid, req.turnId.value);
    RunKeepsInv(AnyRun, env, run);
    ServerTurnsAreAtomic(db, cached, minted, req, verdict, outcome, now);
    if db[sid].row.status == Active {
      ActiveIsFound(db, sid, req);
      RepostOnActive(db, cached, sid, minted, req, verdict, outcome, now);
    }
  }

  lemma ActiveIsFound(db: Db, sid: Sid, req: TurnReq)
    requires OneActive(db) && sid in db && IsActiveFor(db[sid].row, req.user, req.problem)
    ensures GetActive(db, req.user, req.problem) == Some(sid)
  {
    var found := GetActive(db, req.user, req.problem).value;
    assert BothActive(db[found].row, db[sid].row);
  }

  // ---------------------------------------------------------------- a turn recorded twice

  const PASSED := GateVerdict(Pass, 100, [], [], "", 0)

  function Asked(step: Step, id: TurnId): TurnReq {
    TurnReq("u", "p", "o", step, "answer", Some(id), "r")
  }

  ghost function Answered(s: Session, step: Step, id: TurnId): Session {
    RecordTurn(s, s.row, NextSeq(s), ServerTurnOf(Asked(step, id), PASSED, Valid, 0))
  }

  /** A session that holds the turn ids 1..n, one for each step behind it. */
  ghost predicate Climbed(s: Session, step: Step, status: SessionStatus, n: nat) {
    && s.row.user == "u" && s.row.problem == "p" && s.row.step == step && s.row.status == status
    && HoldsUpTo(s, n)
  }

  ghost predicate HoldsUpTo(s: Session, n: nat) {
    forall id: TurnId :: HasTurn(s, id) <==> 1 <= id <= n
  }

  lemma RecordingMarks(s: Session, seen: Row, turn: Turn)
    requires turn.reply == None && turn.turnId.Some?
    ensures forall id: nat :: HasTurn(RecordTurn(s, seen, NextSeq(s), turn), id) <==> HasTurn(s, id) || id == turn.turnId.value
  {
    var t, at := RecordTurn(s, seen, NextSeq(s), turn), NextSeq(s);
    assert t.messages == s.messages[at := AnswerOf(seen, turn)] && at !in s.messages;
    forall id: nat ensures HasTurn(t, id) <==> HasTurn(s, id) || id == turn.turnId.value {
      if k :| k in s.messages && s.messages[k].turnId == Some(id) { assert t.messages[k].turnId == Some(id); }
      assert t.messages[at].turnId == turn.turnId;
    }
  }

  lemma AnswerIsServed(s: Session, step: Step, id: TurnId)
    requires s.row.user == "u" && s.row.problem == "p" && s.row.step == step && s.row.status == Active && !HasTurn(s, id)
    ensures ServerTurn(map[1 := s], None, 2, Asked(step, id), PASSED, Valid, 0).0 == map[1 := Answered(s, step, id)]
  {
    OnlySession(s);
    RecordsWhen(map[1 := s], map[1 := s], 1, s.row, step, ServerTurnOf(Asked(step, id), PASSED, Valid, 0));
    assert map[1 := s][1 := Answered(s, step, id)] == map[1 := Answered(s, step, id)];
  }

  /** One passing answer to the server. */
  lemma Climbs(s: Session, step: Step, n: nat)
    requires Climbed(s, step, Active, n)
    ensures ServerTurn(map[1 := s], None, 2, Asked(step, n + 1), PASSED, Valid, 0).0 == map[1 := Answered(s, step, n + 1)]
    ensures match NextStep(step)
            case Some(next) => Climbed(Answered(s, step, n + 1), next, Active, n + 1)
            case None => Climbed(Answered(s, step, n + 1), step, Completed, n + 1)
  {
    AnswerIsServed(s, step, n + 1);
    AnsweredMarks(s, step, n);
    AnsweredRow(s, step, n + 1);
  }

  lemma AnsweredMarks(s: Session, step: Step, n: nat)
    requires HoldsUpTo(s, n)
    ensures HoldsUpTo(Answered(s, step, n + 1), n + 1)
  {
    RecordingMarks(s, s.row, ServerTurnOf(Asked(step, n + 1), PASSED, Valid, 0));
  }

  lemma AnsweredRow(s: Session, step: Step, id: TurnId)
    requires s.row.status == Active && s.row.step == step
    ensures var t := Answered(s, step, id).row;
            && t.user == s.row.user && t.problem == s.row.problem
            && match NextStep(step)
               case Some(next) => t.step == next && t.status == Active
               case None => t.step == step && t.status == Completed
  {
    PassLeads(StateOf(s.row), PASSED);
  }

  lemma OnlySession(s: Session)
    requires s.row.user == "u" && s.row.problem == "p"
    ensures GetActive(map[1 := s], "u", "p") == if s.row.status == Active then Some(1) else None
  {
    if s.row.status == Active { assert IsActiveFor(map[1 := s][1].row, "u", "p"); }
  }

  const BEGUN := NewSession("u", "p", "o", Conceptual, "r", None, false, 0)

  /** The store after the first n steps of the ladder were answered, each with a pass. */
  ghost function AfterAnswers(n: nat): Db
    requires n <= |StepsFor(Conceptual)|
  {
    if n == 0 then map[1 := BEGUN]
    else ServerTurn(AfterAnswers(n - 1), None, 2, Asked(StepsFor(Conceptual)[n - 1], n), PASSED, Valid, 0).0
  }

  lemma {:induction false} AnswersClimb(n: nat) returns (s: Session)
    requires n <= |StepsFor(Conceptual)|
    ensures AfterAnswers(n) == map[1 := s]
    ensures if n < |StepsFor(Conceptual)| then Climbed(s, StepsFor(Conceptual)[n], Active, n)
            else Climbed(s, StepsFor(Conceptual)[n - 1], Completed, n)
  {
    if n == 0 {
      s := BEGUN;
    } else {
      var before := AnswersClimb(n - 1);
      LadderPosition(Conceptual, n - 1);
      Climbs(before, StepsFor(Conceptual)[n - 1], n - 1);
      s := Answered(before, StepsFor(Conceptual)[n - 1], n);
    }
  }

  /** After the four turns of a conceptual session have completed it, the server refuses the re-post of the
      last one, and records that of the first one a second time, in a session it creates for it. */
  lemma ACompletedTurnIsRecordedAgain()
    ensures var db := AfterAnswers(4);
            && ServerTurn(db, None, 2, Asked(Defend, 4), PASSED, Valid, 0) == (db, Err(StepMismatch))
            && var (db', r) := ServerTurn(db, None, 2, Asked(Explain, 1), PASSED, Valid, 0);
            && r.Ok? && !r.value.replayed && db'.Keys == {1, 2} && HasTurn(db'[1], 1) && HasTurn(db'[2], 1)
  {
    var s := AnswersClimb(4);
    LadderPosition(Conceptual, 0);
    LadderPosition(Conceptual, 3);
    LastIsRefused(s);
    FirstIsRecorded(s);
  }

  lemma LastIsRefused(s: Session)
    requires Climbed(s, Defend, Completed, 4) && FirstStep(TrackOf(Defend)) == Explain
    ensures ServerTurn(map[1 := s], None, 2, Asked(Defend, 4), PASSED, Valid, 0) == (map[1 := s], Err(StepMismatch))
  {
    OnlySession(s);
    PostOnNone(map[1 := s], None, 2, Asked(Defend, 4), PASSED, Valid, 0);
  }

  lemma FirstIsRecorded(s: Session)
    requires Climbed(s, Defend, Completed, 4) && FirstStep(TrackOf(Explain)) == Explain
    ensures var (db', r) := ServerTurn(map[1 := s], None, 2, Asked(Explain, 1), PASSED, Valid, 0);
            r.Ok? && !r.value.replayed && db'.Keys == {1, 2} && HasTurn(db'[1], 1) && HasTurn(db'[2], 1)
  {
    var made := FreshFor(Asked(Explain, 1), 0);
    OnlySession(s);
    FreshRecords(made);
    FreshIsUsed(map[1 := s], made);
    RecordingMarks(made, made.row, ServerTurnOf(Asked(Explain, 1), PASSED, Valid, 0));
  }

  lemma FreshIsUsed(db: Db, made: Session)
    requires 2 !in db && GetActive(db, "u", "p") == None && made == FreshFor(Asked(Explain, 1), 0)
    requires Records(made, made.row, Explain, ServerTurnOf(Asked(Explain, 1), PASSED, Valid, 0))
    ensures var (db', r) := ServerTurn(db, None, 2, Asked(Explain, 1), PASSED, Valid, 0);
            && r.Ok? && !r.value.replayed
            && db' == db[2 := RecordTurn(made, made.row, NextSeq(made), ServerTurnOf(Asked(Explain, 1), PASSED, Valid, 0))]
  {
    ServerTurnsAreAtomic(db, None, 2, Asked(Explain, 1), PASSED, Valid, 0);
    ServerTurnRecords(db, None, 2, Asked(Explain, 1), PASSED, Valid, 0);
  }

  lemma FreshRecords(made: Session)
    requires made == FreshFor(Asked(Explain, 1), 0) && FirstStep(TrackOf(Explain)) == Explain
    ensures Records(made, made.row, Explain, ServerTurnOf(Asked(Explain, 1), PASSED, Valid, 0))
  {
  }
}
