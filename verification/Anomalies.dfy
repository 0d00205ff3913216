/** Concrete runs in which a property that one might expect fails. Each is the witness that the
    condition under which the property is proved cannot be dropped. */
module Anomalies {
  import opened Wrappers
  import opened Steps
  import opened Verdicts
  import opened Fsm
  import opened Gate
  import opened Catalog
  import opened Store
  import opened Quotas
  import opened Turns
  import opened Protocol
  import opened Serialisability

  const OPEN := Env({}, 0)

  lemma Extend(env: Env, run: seq<Action>, a: Action)
    requires IsRun(env, run) && Enabled(env, After(env, run), a)
    ensures IsRun(env, run + [a]) && After(env, run + [a]) == Perform(env, After(env, run), a)
  {
    assert (run + [a])[..|run|] == run;
  }

  function Opening(minted: Sid, requested: Option<ModelKey>): Action {
    CommitCreate(minted, "u", "p", "o", Problem, "r", requested, true, 0)
  }

  function Opened(entry: Entry): Session {
    NewSession("u", "p", "o", Problem, "r", Some(entry.key), TransportOf(entry), 0)
  }

  const SONNET := Entry(ClaudeSonnet, Anthropic, {Homelab, ByokTier})

  lemma SerialOfTwo(a: Op, b: Op)
    ensures SerialRun([a, b]) == Serial(Serial(map[], a), b)
  {
    SerialOfOne(a);
    var ops := [a, b];
    assert ops[..|ops| - 1] == [a];
  }

  lemma SerialOfOne(a: Op)
    ensures SerialRun([a]) == Serial(map[], a)
  {
    var ops := [a];
    assert ops[..|ops| - 1] == [];
  }

  // ---------------------------------------------------------------- a session created during clear-all

  const CLEARED := [DeleteForClear(0, "u", {}), Opening(5, None), CommitErase(0)]

  const CREATED := OpCreate(5, "u", "p", "o", Problem, "r", DefaultModel(Homelab), 0)

  lemma ClearedUpToCommit()
    ensures IsRun(OPEN, CLEARED[..2])
    ensures var w := After(OPEN, CLEARED[..2]);
            w.db == map[5 := Opened(DefaultModel(Homelab))] && w.inflight == map[0 := Clearing("u", {})] && w.log == [CREATED]
  {
    assert RowsOf(START.db, "u") == {};
    Extend(OPEN, [], DeleteForClear(0, "u", {}));
    assert [] + [DeleteForClear(0, "u", {})] == CLEARED[..1];
    Extend(OPEN, CLEARED[..1], Opening(5, None));
    assert CLEARED[..1] + [Opening(5, None)] == CLEARED[..2];
  }

  lemma ClearedCommits()
    ensures IsRun(OPEN, CLEARED) && Missed(After(OPEN, CLEARED[..2]), CommitErase(0)) == {5}
    ensures After(OPEN, CLEARED).db == map[5 := Opened(DefaultModel(Homelab))]
    ensures After(OPEN, CLEARED).log == [CREATED, OpClear("u")]
  {
    ClearedUpToCommit();
    Extend(OPEN, CLEARED[..2], CommitErase(0));
    assert CLEARED[..2] + [CommitErase(0)] == CLEARED;
  }

  /** A session created between clear-all's DELETE and its COMMIT survives it, although clear-all
      commits later: the run is not serialisable in commit order. */
  lemma ClearAllCanMissASession()
    ensures IsRun(OPEN, CLEARED) && !NothingMissed(OPEN, CLEARED)
    ensures After(OPEN, CLEARED).db != SerialRun(After(OPEN, CLEARED).log)
  {
    ClearedCommits();
    SerialOfTwo(CREATED, OpClear("u"));
    assert 5 in After(OPEN, CLEARED).db;
    assert Serial(map[], CREATED) == map[5 := Opened(DefaultModel(Homelab))];
    assert 5 !in SerialRun([CREATED, OpClear("u")]);
    assert CLEARED[..|CLEARED| - 1] == CLEARED[..2];
  }

  // ---------------------------------------------------------------- a turn that lands across transports

  const ASKED := TurnReq("u", "p", "o", Clarify, "answer", None, "r")

  const CROSSED := [Opening(1, None), ReadAddressed(0, ASKED, 1), DeleteForClear(9, "u", {1}), CommitErase(9),
                    Opening(2, Some(ClaudeSonnet)), LandTurn(0, 0), AppendAnswer(0),
                    CommitServer(0, 9, RETRY, Valid, 0, false)]

  const RETRY := RetryFailsafe("hint")

  const READ := map[0 := Addressed(ASKED, 1, Opened(DefaultModel(Homelab)))]

  lemma CrossedUpToRead()
    ensures IsRun(OPEN, CROSSED[..2])
    ensures var w := After(OPEN, CROSSED[..2]);
            w.db == map[1 := Opened(DefaultModel(Homelab))] && w.used == {1} && w.inflight == READ
  {
    Extend(OPEN, [], Opening(1, None));
    assert [] + [Opening(1, None)] == CROSSED[..1];
    Extend(OPEN, CROSSED[..1], ReadAddressed(0, ASKED, 1));
    assert CROSSED[..1] + [ReadAddressed(0, ASKED, 1)] == CROSSED[..2];
  }

  lemma CrossedDeletes()
    ensures IsRun(OPEN, CROSSED[..3])
    ensures var w := After(OPEN, CROSSED[..3]);
            w.db == map[1 := Opened(DefaultModel(Homelab))] && w.used == {1} && w.inflight == READ[9 := Clearing("u", {1})]
  {
    CrossedUpToRead();
    assert RowsOf(After(OPEN, CROSSED[..2]).db, "u") == {1};
    Extend(OPEN, CROSSED[..2], DeleteForClear(9, "u", {1}));
    assert CROSSED[..2] + [DeleteForClear(9, "u", {1})] == CROSSED[..3];
  }

  lemma CrossedUpToErase()
    ensures IsRun(OPEN, CROSSED[..4])
    ensures var w := After(OPEN, CROSSED[..4]); w.db == map[] && w.used == {1} && w.inflight == READ
  {
    CrossedUpToRead();
    CrossedDeletes();
    Extend(OPEN, CROSSED[..3], CommitErase(9));
    assert CROSSED[..3] + [CommitErase(9)] == CROSSED[..4];
  }

  lemma CrossedUpToReopen()
    ensures IsRun(OPEN, CROSSED[..5])
    ensures var w := After(OPEN, CROSSED[..5]); w.db == map[2 := Opened(SONNET)] && w.used == {1, 2} && w.inflight == READ
  {
    CrossedUpToErase();
    Extend(OPEN, CROSSED[..4], Opening(2, Some(ClaudeSonnet)));
    assert CROSSED[..4] + [Opening(2, Some(ClaudeSonnet))] == CROSSED[..5];
  }

  const LANDED := Landed(ASKED, 1, Existing(2, Opened(SONNET).row), Opened(SONNET), None)

  lemma CrossedLands()
    ensures IsRun(OPEN, CROSSED[..6])
    ensures var w := After(OPEN, CROSSED[..6]);
            w.db == map[2 := Opened(SONNET)] && w.used == {1, 2} && w.inflight == map[0 := LANDED]
  {
    CrossedUpToReopen();
    var w := After(OPEN, CROSSED[..5]);
    OnlyActive(w.db, 2);
    Extend(OPEN, CROSSED[..5], LandTurn(0, 0));
    assert CROSSED[..5] + [LandTurn(0, 0)] == CROSSED[..6];
    assert READ[0 := LANDED] == map[0 := LANDED];
  }

  lemma OnlyActive(db: Db, sid: Sid)
    requires db.Keys == {sid} && db[sid].row.status == Active
    ensures GetActive(db, db[sid].row.user, db[sid].row.problem) == Some(sid)
  {
    assert IsActiveFor(db[sid].row, db[sid].row.user, db[sid].row.problem);
  }

  lemma CrossedAsks()
    ensures IsRun(OPEN, CROSSED[..7])
    ensures var w := After(OPEN, CROSSED[..7]);
            && w.db == map[2 := Opened(SONNET)] && w.used == {1, 2}
            && w.inflight == map[0 := Appended(LANDED, NextSeq(Opened(SONNET)))]
  {
    CrossedLands();
    Extend(OPEN, CROSSED[..6], AppendAnswer(0));
    assert CROSSED[..6] + [AppendAnswer(0)] == CROSSED[..7];
    var asked := Appended(LANDED, NextSeq(Opened(SONNET)));
    assert map[0 := LANDED][0 := asked] == map[0 := asked];
  }

  lemma CrossedCommits()
    ensures IsRun(OPEN, CROSSED)
    ensures var w := After(OPEN, CROSSED);
            && 2 in w.db && |w.db[2].calls| == 1 && 0 in w.inflight
            && w.inflight[0] == Owing(2, Clarify, Some(ClaudeSonnet), false, None)
  {
    CrossedAsks();
    CrossedMayCommit(After(OPEN, CROSSED[..7]));
    Extend(OPEN, CROSSED[..7], CommitServer(0, 9, RETRY, Valid, 0, false));
    CrossedCommitsTo(After(OPEN, CROSSED[..7]));
    assert CROSSED[..7] + [CommitServer(0, 9, RETRY, Valid, 0, false)] == CROSSED;
  }

  /** A turn addressed to a local session can land on a bring-your-own-key session of the same user
      and problem, when the one is deleted and the other opened after the route's check, and commit
      there; the coach reply it then owes is paid for with the server's key. */
  lemma ATurnCanLandAcrossTransports()
    ensures IsRun(OPEN, CROSSED) && 0 in After(OPEN, CROSSED).inflight
    ensures var txn := After(OPEN, CROSSED).inflight[0];
            && txn.Owing? && txn.sid == 2 && !txn.addressed && txn.sid in After(OPEN, CROSSED).db
            && |After(OPEN, CROSSED).db[2].calls| == 1
            && ResolveCoach(txn.model, Homelab, true, false, true).mode == ServerKey
  {
    CrossedCommits();
  }

  lemma CrossedMayCommit(w: World)
    requires w.db == map[2 := Opened(SONNET)] && w.used == {1, 2}
    requires w.inflight == map[0 := Appended(LANDED, NextSeq(Opened(SONNET)))]
    ensures Enabled(OPEN, w, CommitServer(0, 9, RETRY, Valid, 0, false))
  {
  }

  lemma CrossedCommitsTo(w: World)
    requires w.db == map[2 := Opened(SONNET)] && Enabled(OPEN, w, CommitServer(0, 9, RETRY, Valid, 0, false))
    requires w.inflight == map[0 := Appended(LANDED, NextSeq(Opened(SONNET)))]
    ensures var w' := Perform(OPEN, w, CommitServer(0, 9, RETRY, Valid, 0, false));
            && 2 in w'.db && |w'.db[2].calls| == 1 && 0 in w'.inflight
            && w'.inflight[0] == Owing(2, Clarify, Some(ClaudeSonnet), false, None)
  {
  }
}
