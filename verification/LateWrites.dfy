/** Runs in which the row that a server turn reflected is written after other writers have moved on. */
module LateWrites {
  import opened Wrappers
  import opened Steps
  import opened Verdicts
  import opened Fsm
  import opened Gate
  import opened Catalog
  import opened Store
  import opened Turns
  import opened SessionLaws
  import opened Protocol
  import opened ProtocolRuns
  import opened Safety
  import opened Anomalies

  /** One session, which the request addresses and no transaction holds. */
  ghost predicate Alone(w: World, s: Session) {
    && w.db == map[1 := s] && w.used == {1}
    && (forall u :: u in w.inflight ==> !Holds(w.inflight[u], 1))
    && Answerable(s.row)
  }

  predicate Answerable(row: Row) {
    && row.user == "u" && row.problem == "p" && row.origin == "o" && !row.byok
    && row.status == Active && row.step == Clarify
  }

  /** What one retry, computed from `seen`, makes of a session. */
  ghost predicate RetriedFrom(s: Session, seen: Row, t: Session) {
    && t.row.version == seen.version + 1 && t.row.attempts == seen.attempts + 1 && Answerable(t.row)
    && t.trail == s.trail + [RETRY] && |t.calls| == |s.calls| + 1
    && t.switches == s.switches && t.row.track == s.row.track
  }

  lemma RetryResult(s: Session, seen: Row, at: nat)
    requires Answerable(s.row) && seen.status == Active && seen.step == Clarify
    ensures RetriedFrom(s, seen, RecordTurn(s, seen, at, ServerTurnOf(ASKED, RETRY, Valid, 0)))
  {
  }

  function Ask(t: Tid, cited: bool): Action {
    CommitServer(t, 9, RETRY, Valid, 0, cited)
  }

  function Finish(t: Tid, cited: bool): seq<Action> {
    [LandTurn(t, 0), AppendAnswer(t), Ask(t, cited)]
  }

  lemma Reads(run: seq<Action>, s: Session, t: Tid)
    requires IsRun(OPEN, run) && Alone(After(OPEN, run), s) && t !in After(OPEN, run).inflight
    ensures var longer := run + [ReadAddressed(t, ASKED, 1)];
            && IsRun(OPEN, longer) && Alone(After(OPEN, longer), s)
            && After(OPEN, longer).inflight == After(OPEN, run).inflight[t := Addressed(ASKED, 1, s)]
  {
    Extend(OPEN, run, ReadAddressed(t, ASKED, 1));
  }

  lemma Lands(run: seq<Action>, s: Session, seen: Session, t: Tid)
    requires IsRun(OPEN, run) && Alone(After(OPEN, run), s)
    requires t in After(OPEN, run).inflight && After(OPEN, run).inflight[t] == Addressed(ASKED, 1, seen)
    requires seen.row.status == Active && seen.row.step == Clarify
    ensures var longer := run + [LandTurn(t, 0)];
            && IsRun(OPEN, longer) && After(OPEN, longer).db == map[1 := s] && After(OPEN, longer).used == {1}
            && After(OPEN, longer).inflight == After(OPEN, run).inflight[t := Landed(ASKED, 1, Existing(1, s.row), seen, None)]
  {
    OnlyActive(After(OPEN, run).db, 1);
    Extend(OPEN, run, LandTurn(t, 0));
  }

  lemma Asks(run: seq<Action>, s: Session, seen: Session, t: Tid)
    requires IsRun(OPEN, run) && After(OPEN, run).db == map[1 := s] && After(OPEN, run).used == {1}
    requires t in After(OPEN, run).inflight
    requires After(OPEN, run).inflight[t] == Landed(ASKED, 1, Existing(1, s.row), seen, None)
    ensures var longer := run + [AppendAnswer(t)];
            && IsRun(OPEN, longer) && After(OPEN, longer).db == map[1 := s] && After(OPEN, longer).used == {1}
            && After(OPEN, longer).inflight
               == After(OPEN, run).inflight[t := Landed(ASKED, 1, Existing(1, s.row), seen, Some(NextSeq(s)))]
  {
    Extend(OPEN, run, AppendAnswer(t));
  }

  function Owed(seen: Row, cited: bool): Txn {
    Owing(1, seen.step, seen.model, true, if cited then Some(seen.version + 2) else None)
  }

  lemma Commits(run: seq<Action>, s: Session, seen: Session, t: Tid, cited: bool)
    requires IsRun(OPEN, run) && After(OPEN, run).db == map[1 := s] && After(OPEN, run).used == {1}
    requires t in After(OPEN, run).inflight
    requires After(OPEN, run).inflight[t] == Landed(ASKED, 1, Existing(1, s.row), seen, Some(NextSeq(s)))
    requires seen.row.version == s.row.version
    ensures var longer := run + [Ask(t, cited)];
            && IsRun(OPEN, longer) && After(OPEN, longer).used == {1}
            && After(OPEN, longer).db == map[1 := RecordTurn(s, seen.row, NextSeq(s), ServerTurnOf(ASKED, RETRY, Valid, 0))]
            && After(OPEN, longer).inflight == After(OPEN, run).inflight[t := Owed(seen.row, cited)]
  {
    MayCommit(After(OPEN, run), s, seen, t, cited);
    Extend(OPEN, run, Ask(t, cited));
    CommitsTo(After(OPEN, run), s, seen, t, cited);
  }

  lemma MayCommit(w: World, s: Session, seen: Session, t: Tid, cited: bool)
    requires w.db == map[1 := s] && w.used == {1} && seen.row.version == s.row.version
    requires t in w.inflight && w.inflight[t] == Landed(ASKED, 1, Existing(1, s.row), seen, Some(NextSeq(s)))
    ensures Enabled(OPEN, w, Ask(t, cited))
  {
  }

  lemma CommitsTo(w: World, s: Session, seen: Session, t: Tid, cited: bool)
    requires w.db == map[1 := s] && w.used == {1} && Enabled(OPEN, w, Ask(t, cited))
    requires t in w.inflight && w.inflight[t] == Landed(ASKED, 1, Existing(1, s.row), seen, Some(NextSeq(s)))
    ensures var w' := Perform(OPEN, w, Ask(t, cited));
            && w'.db == map[1 := RecordTurn(s, seen.row, NextSeq(s), ServerTurnOf(ASKED, RETRY, Valid, 0))]
            && w'.used == {1} && w'.inflight == w.inflight[t := Owed(seen.row, cited)]
  {
    var after := RecordTurn(s, seen.row, NextSeq(s), ServerTurnOf(ASKED, RETRY, Valid, 0));
    assert map[1 := s][1 := after] == map[1 := after];
  }

  lemma Moves(run: seq<Action>, s: Session, seen: Session, t: Tid, cited: bool)
    requires IsRun(OPEN, run) && Alone(After(OPEN, run), s)
    requires t in After(OPEN, run).inflight && After(OPEN, run).inflight[t] == Addressed(ASKED, 1, seen)
    requires seen.row.status == Active && seen.row.step == Clarify && seen.row.version == s.row.version
    ensures var longer := run + [LandTurn(t, 0)] + [AppendAnswer(t)] + [Ask(t, cited)];
            && IsRun(OPEN, longer) && After(OPEN, longer).used == {1}
            && After(OPEN, longer).db == map[1 := RecordTurn(s, seen.row, NextSeq(s), ServerTurnOf(ASKED, RETRY, Valid, 0))]
            && After(OPEN, longer).inflight == After(OPEN, run).inflight[t := Owed(seen.row, cited)]
  {
    var r1 := run + [LandTurn(t, 0)];
    var r2 := r1 + [AppendAnswer(t)];
    Lands(run, s, seen, t);
    Asks(r1, s, seen, t);
    Commits(r2, s, seen, t, cited);
    PutsChain(After(OPEN, run).inflight, t, After(OPEN, r1).inflight[t], After(OPEN, r2).inflight[t], Owed(seen.row, cited));
  }

  /** A turn that read its row at some time lands, asks and commits while nothing else moves. The versions
      agree; the rows need not. */
  lemma Finishes(run: seq<Action>, s: Session, seen: Session, t: Tid, cited: bool) returns (after: Session)
    requires IsRun(OPEN, run) && Alone(After(OPEN, run), s)
    requires t in After(OPEN, run).inflight && After(OPEN, run).inflight[t] == Addressed(ASKED, 1, seen)
    requires seen.row.status == Active && seen.row.step == Clarify && seen.row.version == s.row.version
    ensures var longer := run + Finish(t, cited);
            && IsRun(OPEN, longer) && Alone(After(OPEN, longer), after) && RetriedFrom(s, seen.row, after)
            && After(OPEN, longer).inflight == After(OPEN, run).inflight[t := Owed(seen.row, cited)]
  {
    var longer := run + Finish(t, cited);
    assert longer == run + [LandTurn(t, 0)] + [AppendAnswer(t)] + [Ask(t, cited)];
    Moves(run, s, seen, t, cited);
    after := RecordTurn(s, seen.row, NextSeq(s), ServerTurnOf(ASKED, RETRY, Valid, 0));
    RetryResult(s, seen.row, NextSeq(s));
    AloneAfterwards(After(OPEN, run), After(OPEN, longer), s, t, Owed(seen.row, cited), after);
  }

  lemma PutsChain(m: map<Tid, Txn>, t: Tid, a: Txn, b: Txn, c: Txn)
    ensures m[t := a][t := b][t := c] == m[t := c]
  {
  }

  lemma AloneAfterwards(w: World, w': World, s: Session, t: Tid, txn: Txn, after: Session)
    requires Alone(w, s) && w'.db == map[1 := after] && w'.used == {1} && Answerable(after.row)
    requires w'.inflight == w.inflight[t := txn] && txn.Owing?
    ensures Alone(w', after)
  {
  }

  /** A whole turn by itself. */
  lemma TakesTurn(run: seq<Action>, s: Session, t: Tid, cited: bool) returns (after: Session)
    requires IsRun(OPEN, run) && Alone(After(OPEN, run), s) && t !in After(OPEN, run).inflight
    ensures var longer := run + [ReadAddressed(t, ASKED, 1)] + Finish(t, cited);
            && IsRun(OPEN, longer) && Alone(After(OPEN, longer), after) && RetriedFrom(s, s.row, after)
            && After(OPEN, longer).inflight == After(OPEN, run).inflight[t := Owed(s.row, cited)]
  {
    Reads(run, s, t);
    after := Finishes(run + [ReadAddressed(t, ASKED, 1)], s, s, t, cited);
    PutsChain(After(OPEN, run).inflight, t, Addressed(ASKED, 1, s), Addressed(ASKED, 1, s), Owed(s.row, cited));
  }

  // ---------------------------------------------------------------- the run

  const RUN0 := [Opening(1, None)]
  const RUN1 := RUN0 + [ReadAddressed(0, ASKED, 1)] + Finish(0, true)
  const RUN2 := RUN1 + [ReadAddressed(1, ASKED, 1)] + Finish(1, false)
  const RUN3 := RUN2 + [ReadAddressed(2, ASKED, 1)]
  const RUN4 := RUN3 + [ReadAddressed(3, ASKED, 1)] + Finish(3, false)
  const RUN5 := RUN4 + [FollowUp(0)]
  const RUN6 := RUN5 + Finish(2, false)

  /** After so many retries, the row and the log agreeing. */
  ghost predicate Stands(run: seq<Action>, s: Session, retries: nat, trail: seq<GateVerdict>) {
    && IsRun(OPEN, run) && Alone(After(OPEN, run), s)
    && s.row.version == retries && s.row.attempts == retries && |s.calls| == retries && s.trail == trail
    && s.switches == 0 && s.row.track == Problem
  }

  lemma Opens() returns (s: Session)
    ensures Stands(RUN0, s, 0, []) && After(OPEN, RUN0).inflight == map[]
  {
    s := Opened(DefaultModel(Homelab));
    Extend(OPEN, [], Opening(1, None));
    assert [] + [Opening(1, None)] == RUN0;
  }

  lemma FirstTurn() returns (s: Session)
    ensures Stands(RUN1, s, 1, [RETRY]) && After(OPEN, RUN1).inflight.Keys == {0}
    ensures Pends(After(OPEN, RUN1))
  {
    var initial := Opens();
    s := TakesTurn(RUN0, initial, 0, true);
  }

  /** The first turn's reflected row is still to be written, as version two. */
  ghost predicate Pends(w: World) {
    0 in w.inflight && w.inflight[0].Owing? && w.inflight[0].sid == 1 && w.inflight[0].pending == Some(2)
  }

  /** One turn on a grounded lesson leaves the version at two, with one audit row and no switch. */
  lemma OneGroundedTurnCountsTwice()
    ensures IsRun(OPEN, RUN1 + [FollowUp(0)]) && 1 in After(OPEN, RUN1 + [FollowUp(0)]).db
    ensures var s := After(OPEN, RUN1 + [FollowUp(0)]).db[1];
            s.row.version == 2 && |s.calls| == 1 && s.switches == 0
  {
    var s := FirstTurn();
    Extend(OPEN, RUN1, FollowUp(0));
  }

  lemma SecondTurn() returns (s: Session)
    ensures Stands(RUN2, s, 2, [RETRY, RETRY]) && After(OPEN, RUN2).inflight.Keys == {0, 1} && Pends(After(OPEN, RUN2))
  {
    var before := FirstTurn();
    s := TakesTurn(RUN1, before, 1, false);
  }

  lemma ThirdReads() returns (s: Session)
    ensures Stands(RUN3, s, 2, [RETRY, RETRY]) && After(OPEN, RUN3).inflight.Keys == {0, 1, 2} && Pends(After(OPEN, RUN3))
    ensures After(OPEN, RUN3).inflight[2] == Addressed(ASKED, 1, s)
  {
    s := SecondTurn();
    Reads(RUN2, s, 2);
  }

  lemma FourthTurn() returns (seen: Session, s: Session)
    ensures Stands(RUN3, seen, 2, [RETRY, RETRY])
    ensures Stands(RUN4, s, 3, [RETRY, RETRY, RETRY]) && After(OPEN, RUN4).inflight.Keys == {0, 1, 2, 3} && Pends(After(OPEN, RUN4))
    ensures After(OPEN, RUN4).inflight[2] == Addressed(ASKED, 1, seen)
  {
    seen := ThirdReads();
    s := TakesTurn(RUN3, seen, 3, false);
  }

  lemma FollowsUp() returns (seen: Session, s: Session, after: Session)
    ensures Stands(RUN3, seen, 2, [RETRY, RETRY]) && Stands(RUN4, s, 3, [RETRY, RETRY, RETRY])
    ensures IsRun(OPEN, RUN5) && Alone(After(OPEN, RUN5), after) && after == Followed(s, 2)
    ensures 2 in After(OPEN, RUN5).inflight && After(OPEN, RUN5).inflight[2] == Addressed(ASKED, 1, seen)
    ensures !LowersNothing(After(OPEN, RUN4), FollowUp(0))
  {
    seen, s := FourthTurn();
    after := Followed(s, 2);
    MayFollow(After(OPEN, RUN4), s);
    Extend(OPEN, RUN4, FollowUp(0));
    FollowsTo(After(OPEN, RUN4), s);
  }

  lemma MayFollow(w: World, s: Session)
    requires Alone(w, s) && Pends(w)
    ensures Enabled(OPEN, w, FollowUp(0))
  {
  }

  lemma FollowsTo(w: World, s: Session)
    requires Alone(w, s) && Pends(w) && Enabled(OPEN, w, FollowUp(0))
    ensures var w' := Perform(OPEN, w, FollowUp(0));
            Alone(w', Followed(s, 2)) && w'.inflight == w.inflight[0 := w.inflight[0].(pending := None)]
  {
    assert map[1 := s][1 := Followed(s, 2)] == map[1 := Followed(s, 2)];
  }

  /** Two other turns later the first turn's reflected row is written: the version falls from three to
      two, the version that the session had one turn ago with another row. */
  lemma AFollowUpCanLowerTheVersion()
    ensures IsRun(OPEN, RUN3) && IsRun(OPEN, RUN4) && IsRun(OPEN, RUN5)
    ensures 1 in After(OPEN, RUN3).db && 1 in After(OPEN, RUN4).db && 1 in After(OPEN, RUN5).db
    ensures !LowersNothing(After(OPEN, RUN4), FollowUp(0))
    ensures var a, b, c := After(OPEN, RUN3).db[1], After(OPEN, RUN4).db[1], After(OPEN, RUN5).db[1];
            && a.row.version == 2 && b.row.version == 3 && c.row.version == 2
            && a.row.attempts == 2 && c.row.attempts == 3 && !SameState(a, c)
  {
    var seen, s, after := FollowsUp();
  }

  /** A turn that had read that earlier row then passes the version check, and what the turn in between
      did to the row is lost: after four retries the row counts three attempts. */
  lemma ALoweredVersionLosesAnUpdate()
    ensures IsRun(OPEN, RUN6) && 1 in After(OPEN, RUN6).db
    ensures var s := After(OPEN, RUN6).db[1];
            s.trail == [RETRY, RETRY, RETRY, RETRY] && s.row.attempts == 3 && !RowFoldsLog(s)
    ensures !NothingIsLost(OPEN, RUN6)
  {
    var seen, s, lowered := FollowsUp();
    var last := Finishes(RUN5, lowered, seen, 2, false);
    assert [RETRY, RETRY, RETRY] + [RETRY] == [RETRY, RETRY, RETRY, RETRY];
    FourRetries();
    NotFolded(last);
    FoldsThroughoutIff(OPEN, RUN6);
  }

  /** Lowering the version is not yet losing anything: up to its flush the run above loses nothing, and only
      the turn that commits after it does. */
  lemma LoweringAloneLosesNothing()
    ensures IsRun(OPEN, RUN5) && !NothingLowered(OPEN, RUN5) && NothingIsLost(OPEN, RUN5)
  {
    var seen, s, after := FollowsUp();
    assert RUN5[..|RUN5| - 1] == RUN4;
    NoFlushBefore();
    UncitedRunsLowerNothing(OPEN, RUN4);
    OrderedRunsLoseNothing(OPEN, RUN4);
  }

  lemma NoFlushBefore()
    ensures forall i :: 0 <= i < |RUN4| ==> !RUN4[i].FollowUp?
  {
    assert forall i :: 0 <= i < |RUN1| ==> !RUN1[i].FollowUp?;
    assert forall i :: 0 <= i < |RUN2| ==> !RUN2[i].FollowUp?;
    assert forall i :: 0 <= i < |RUN3| ==> !RUN3[i].FollowUp?;
  }

  lemma NotFolded(s: Session)
    requires s.row.attempts == 3 && Fold(s.row.track, s.trail).attempts == 4
    ensures !RowFoldsLog(s)
  {
    assert StateOf(s.row).attempts != Replayed(s).attempts;
  }

  lemma FourRetries()
    ensures Fold(Problem, [RETRY, RETRY, RETRY, RETRY]).attempts == 4
  {
    assert [RETRY, RETRY, RETRY, RETRY] == [RETRY, RETRY, RETRY] + [RETRY];
    assert [RETRY, RETRY, RETRY] == [RETRY, RETRY] + [RETRY];
    assert [RETRY, RETRY] == [RETRY] + [RETRY];
    assert [RETRY] == [] + [RETRY];
    FoldSnoc(Problem, [], RETRY);
    FoldSnoc(Problem, [RETRY], RETRY);
    FoldSnoc(Problem, [RETRY, RETRY], RETRY);
    FoldSnoc(Problem, [RETRY, RETRY, RETRY], RETRY);
  }
}
