/** The committed store is the one that the committed transactions, run alone in commit order, produce. */
module Serialisability {
  import opened Wrappers
  import opened Steps
  import opened Verdicts
  import opened Fsm
  import opened Gate
  import opened Catalog
  import opened Store
  import opened Quotas
  import opened Turns
  import opened SessionLaws
  import opened Protocol
  import opened ProtocolLaws
  import opened ProtocolCommits
  import opened ProtocolRuns

  // ---------------------------------------------------------------- one commit

  lemma ActiveIsUnique(db: Db, sid: Sid)
    requires OneActive(db) && sid in db && db[sid].row.status == Active
    ensures GetActive(db, db[sid].row.user, db[sid].row.problem) == Some(sid)
  {
    assert IsActiveFor(db[sid].row, db[sid].row.user, db[sid].row.problem);
  }

  lemma ServerTurnOnActive(db: Db, sid: Sid, minted: Sid, req: TurnReq, verdict: GateVerdict, outcome: GateOutcome, now: int)
    requires OneActive(db) && sid in db && IsActiveFor(db[sid].row, req.user, req.problem)
    requires db[sid].row.step == req.step && !IsReplay(db[sid], req.turnId)
    ensures ServerTurn(db, None, minted, req, verdict, outcome, now).0
         == db[sid := RecordTurn(db[sid], db[sid].row, NextSeq(db[sid]), ServerTurnOf(req, verdict, outcome, now))]
  {
    ActiveIsUnique(db, sid);
  }

  lemma ServerTurnOnNone(db: Db, minted: Sid, req: TurnReq, verdict: GateVerdict, outcome: GateOutcome, now: int)
    requires !HasActive(db, req.user, req.problem) && FirstStep(TrackOf(req.step)) == req.step
    ensures var s := FreshFor(req, now);
            ServerTurn(db, None, minted, req, verdict, outcome, now).0 ==
            db[minted := RecordTurn(s, s.row, NextSeq(s), ServerTurnOf(req, verdict, outcome, now))]
  {
  }

  /** When a fresh row was made does not matter once a turn has been saved to it. */
  lemma FreshRowsRecordAlike(s: Session, req: TurnReq, at: nat, turn: Turn)
    requires IsFresh(s, req)
    ensures var f := FreshFor(req, turn.now);
            NextSeq(f) == NextSeq(s) && RecordTurn(s, s.row, at, turn) == RecordTurn(f, f.row, at, turn)
    ensures s.row.step == FirstStep(TrackOf(req.step))
  {
    var made :| s == FreshFor(req, made);
  }

  /** What a server turn leaves in the store when it commits. */
  ghost function LandedDb(w: World, txn: Txn, minted: Sid, turn: Turn): Db
    requires txn.Landed? && txn.placed.Some? && TargetNow(w, txn).Some?
  {
    w.db[SidOf(txn, minted) := RecordTurn(TargetNow(w, txn).value, txn.seen.row, txn.placed.value, turn)]
  }

  /** A server turn that commits does what it would have done alone on the store it commits to, although
      it read its row, looked for its turn id and took its sequence number at earlier moments, if and only
      if it loses nothing of that row. */
  lemma LandedTurnIsSerialIff(env: Env, w: World, t: Tid, minted: Sid, verdict: GateVerdict, outcome: GateOutcome, now: int)
    requires Inv(AnyRun, env, w) && t in w.inflight && w.inflight[t].Landed? && w.inflight[t].placed.Some?
    requires TargetNow(w, w.inflight[t]).Some?
    requires MayRecord(TargetNow(w, w.inflight[t]).value, w.inflight[t].seen.row, w.inflight[t].placed.value,
                       TurnOf(w.inflight[t], verdict, outcome, now))
    ensures var txn := w.inflight[t];
            LandedDb(w, txn, minted, TurnOf(txn, verdict, outcome, now)) == ServerTurn(w.db, None, minted, txn.req, verdict, outcome, now).0
            <==> NothingLost(StateOf(TargetNow(w, txn).value.row), StateOf(txn.seen.row), verdict)
  {
    var txn := w.inflight[t];
    var turn := TurnOf(txn, verdict, outcome, now);
    LandedFits(AnyRun, env, w, t, turn);
    LandedRecordsIff(AnyRun, env, w, t, turn);
    LandedIsAsAsked(env, w, txn);
    if txn.target.Existing? {
      LandedOnRowIsSerialIff(w.db, txn, minted, verdict, outcome, now);
    } else {
      FreshRowsRecordAlike(txn.seen, txn.req, txn.placed.value, turn);
      ServerTurnOnNone(w.db, minted, txn.req, verdict, outcome, now);
    }
  }

  lemma LandedIsAsAsked(env: Env, w: World, txn: Txn)
    requires TxnOk(AnyRun, env, w, txn) && txn.Landed?
    ensures txn.seen.row.step == txn.req.step
    ensures txn.target.Existing? ==> txn.target.sid in w.db && IsActiveFor(w.db[txn.target.sid].row, txn.req.user, txn.req.problem)
    ensures txn.target.Inserted? ==> IsFresh(txn.seen, txn.req)
  {
  }

  lemma LandedOnRowIsSerialIff(db: Db, txn: Txn, minted: Sid, verdict: GateVerdict, outcome: GateOutcome, now: int)
    requires OneActive(db) && txn.Landed? && txn.target.Existing? && txn.target.sid in db
    requires IsActiveFor(db[txn.target.sid].row, txn.req.user, txn.req.problem) && txn.seen.row.step == txn.req.step
    requires !IsReplay(db[txn.target.sid], txn.req.turnId)
    ensures var s := db[txn.target.sid]; var turn := TurnOf(txn, verdict, outcome, now);
            var mine, alone := RecordTurn(s, txn.seen.row, NextSeq(s), turn), RecordTurn(s, s.row, NextSeq(s), turn);
            db[txn.target.sid := mine] == ServerTurn(db, None, minted, txn.req, verdict, outcome, now).0
            <==> s.row.step == txn.req.step && mine == alone
  {
    var sid := txn.target.sid;
    var s, turn := db[sid], TurnOf(txn, verdict, outcome, now);
    var mine := RecordTurn(s, txn.seen.row, NextSeq(s), turn);
    if s.row.step == txn.req.step {
      ServerTurnOnActive(db, sid, minted, txn.req, verdict, outcome, now);
      PutsAreEqualIff(db, sid, mine, RecordTurn(s, s.row, NextSeq(s), turn));
    } else {
      ServerTurnMismatched(db, sid, minted, txn.req, verdict, outcome, now);
      RecordingChanges(s, txn.seen.row, NextSeq(s), turn);
      assert db[sid := mine][sid] != db[sid];
    }
  }

  lemma PutsAreEqualIff(db: Db, sid: Sid, a: Session, b: Session)
    ensures db[sid := a] == db[sid := b] <==> a == b
  {
    assert db[sid := a][sid] == a && db[sid := b][sid] == b;
  }

  lemma RecordingChanges(s: Session, seen: Row, at: nat, turn: Turn)
    ensures RecordTurn(s, seen, at, turn) != s
  {
    assert |RecordTurn(s, seen, at, turn).calls| == |s.calls| + 1;
  }

  lemma ServerTurnMismatched(db: Db, sid: Sid, minted: Sid, req: TurnReq, verdict: GateVerdict, outcome: GateOutcome, now: int)
    requires OneActive(db) && sid in db && IsActiveFor(db[sid].row, req.user, req.problem)
    requires db[sid].row.step != req.step && !IsReplay(db[sid], req.turnId)
    ensures ServerTurn(db, None, minted, req, verdict, outcome, now).0 == db
  {
    ActiveIsUnique(db, sid);
  }

  lemma PostedTurnIsSerial(env: Env, w: World, t: Tid)
    requires Inv(AnyRun, env, w) && t in w.inflight && w.inflight[t].Posted? && w.inflight[t].placed.Some? && w.inflight[t].sid in w.db
    requires MayRecord(w.db[w.inflight[t].sid], w.inflight[t].seen.row, w.inflight[t].placed.value, w.inflight[t].turn)
    ensures var txn := w.inflight[t];
            w.db[txn.sid := RecordTurn(w.db[txn.sid], txn.seen.row, txn.placed.value, txn.turn)] ==
            Serial(w.db, OpByok(txn.sid, txn.turn, txn.seen.row.step))
  {
    PostedFits(AnyRun, env, w, t);
    PostedIsByok(env, w, t);
    SerialByok(w.db, w.inflight[t].sid, w.inflight[t].turn);
  }

  lemma PostedIsByok(env: Env, w: World, t: Tid)
    requires TxnsOk(AnyRun, env, w) && t in w.inflight && w.inflight[t].Posted?
    ensures w.inflight[t].seen.row.byok
  {
    assert TxnOk(AnyRun, env, w, w.inflight[t]);
  }

  lemma SerialByok(db: Db, sid: Sid, turn: Turn)
    requires sid in db && db[sid].row.byok && db[sid].row.status == Active && !IsReplay(db[sid], turn.turnId)
    ensures Serial(db, OpByok(sid, turn, db[sid].row.step)) == db[sid := RecordTurn(db[sid], db[sid].row, NextSeq(db[sid]), turn)]
  {
  }

  lemma ReplyIsSerial(env: Env, w: World, t: Tid)
    requires Inv(AnyRun, env, w) && t in w.inflight && w.inflight[t].Replying? && w.inflight[t].sid in w.db
    requires MayInsert(w.db[w.inflight[t].sid], w.inflight[t].at, w.inflight[t].reply)
    ensures var txn := w.inflight[t];
            w.db[txn.sid := InsertMessage(w.db[txn.sid], txn.at, txn.reply)] == Serial(w.db, OpReply(txn.sid, txn.reply))
  {
    ReplyFits(AnyRun, env, w, t);
    SerialReply(w.db, w.inflight[t].sid, w.inflight[t].reply);
  }

  lemma SerialReply(db: Db, sid: Sid, reply: Message)
    requires sid in db && reply.role == Coach && reply.turnId == None
    ensures Serial(db, OpReply(sid, reply)) == db[sid := InsertMessage(db[sid], NextSeq(db[sid]), reply)]
  {
    assert reply == Message(Coach, reply.step, reply.content, None, reply.model);
  }

  lemma SwitchIsSerial(env: Env, w: World, t: Tid, now: int)
    requires Inv(AnyRun, env, w) && t in w.inflight && w.inflight[t].Switching? && w.inflight[t].sid in w.db
    ensures var txn := w.inflight[t];
            w.db[txn.sid := SetCoachModel(w.db[txn.sid], txn.seen.row.version, txn.entry, now)] ==
            Serial(w.db, OpSwitch(txn.sid, txn.entry, now))
  {
    SwitchFits(AnyRun, env, w, t, now);
    SerialSwitch(w.db, w.inflight[t].sid, w.inflight[t].entry, now);
  }

  lemma SerialSwitch(db: Db, sid: Sid, entry: Entry, now: int)
    requires sid in db && db[sid].row.status == Active
    ensures Serial(db, OpSwitch(sid, entry, now)) == db[sid := SetCoachModel(db[sid], db[sid].row.version, entry, now)]
  {
  }

  // ---------------------------------------------------------------- deletes

  /** The rows that a delete transaction's predicate selects at commit but its DELETE did not see:
      they were committed between its DELETE statement and its COMMIT. */
  ghost function Missed(w: World, a: Action): set<Sid> {
    match a
    case CommitErase(t) =>
      if t !in w.inflight then {}
      else if w.inflight[t].Clearing? then RowsOf(w.db, w.inflight[t].user) - w.inflight[t].doomed
      else if w.inflight[t].Purging? then ExpiredRows(w.db, w.inflight[t].now) - w.inflight[t].doomed
      else {}
    case CommitReset(t, _, _, _, _) =>
      if t in w.inflight && w.inflight[t].Resetting? && w.inflight[t].deleting.Some?
      then RowsFor(w.db, w.inflight[t].seen.row.user, w.inflight[t].seen.row.problem) - w.inflight[t].deleting.value
      else {}
    case _ => {}
  }

  lemma WithoutKeys(db: Db, doomed: set<Sid>)
    ensures Without(db, doomed).Keys == db.Keys - doomed
  {
  }

  lemma WithoutIsInjective(db: Db, a: set<Sid>, b: set<Sid>)
    requires a <= b <= db.Keys
    ensures Without(db, a) == Without(db, b) <==> b - a == {}
  {
    if b - a == {} {
      forall x | x in b ensures x in a {
        assert x !in b - a;
      }
      assert a == b;
    } else {
      var x :| x in b - a;
      assert x in db;
      WithoutKeys(db, a);
      WithoutKeys(db, b);
      assert x in Without(db, a).Keys && x !in Without(db, b).Keys;
    }
  }

  /** Clear-all and purge: the commit is serial exactly when nothing slipped in. */
  lemma EraseIsSerialIff(w: World, t: Tid)
    requires t in w.inflight && (w.inflight[t].Clearing? || w.inflight[t].Purging?) && DoomedSelected(w, t)
    ensures var txn := w.inflight[t];
            Without(w.db, txn.doomed) == Serial(w.db, if txn.Clearing? then OpClear(txn.user) else OpPurge(txn.now))
            <==> Missed(w, CommitErase(t)) == {}
  {
    if w.inflight[t].Clearing? {
      ClearIsSerialIff(w.db, w.inflight[t].user, w.inflight[t].doomed);
    } else {
      PurgeIsSerialIff(w.db, w.inflight[t].now, w.inflight[t].doomed);
    }
  }

  lemma ClearIsSerialIff(db: Db, user: string, doomed: set<Sid>)
    requires doomed <= RowsOf(db, user)
    ensures Without(db, doomed) == Serial(db, OpClear(user)) <==> RowsOf(db, user) - doomed == {}
  {
    WithoutIsInjective(db, doomed, RowsOf(db, user));
  }

  lemma PurgeIsSerialIff(db: Db, now: int, doomed: set<Sid>)
    requires doomed <= ExpiredRows(db, now)
    ensures Without(db, doomed) == Serial(db, OpPurge(now)) <==> ExpiredRows(db, now) - doomed == {}
  {
    WithoutIsInjective(db, doomed, ExpiredRows(db, now));
  }

  /** What a delete transaction holds is selected by its predicate, then and now. */
  ghost predicate DoomedSelected(w: World, t: Tid)
    requires t in w.inflight
  {
    match w.inflight[t]
    case Clearing(user, doomed) => doomed <= RowsOf(w.db, user)
    case Purging(now, doomed) => doomed <= ExpiredRows(w.db, now)
    case Resetting(sid, seen, deleting) =>
      && sid in w.db && w.db[sid].row == seen.row
      && (deleting.Some? ==> deleting.value <= RowsFor(w.db, seen.row.user, seen.row.problem))
    case _ => true
  }

  lemma DoomedAreSelected(env: Env, w: World, t: Tid)
    requires TxnsOk(AnyRun, env, w) && t in w.inflight
    ensures DoomedSelected(w, t)
  {
    assert TxnOk(AnyRun, env, w, w.inflight[t]);
  }

  ghost function AfterReset(env: Env, w: World, t: Tid, minted: Sid, rubric: string, hasLocal: bool, now: int): Db
    requires t in w.inflight && w.inflight[t].Resetting? && w.inflight[t].deleting.Some?
  {
    var txn := w.inflight[t];
    var row := txn.seen.row;
    CreateSession(Without(w.db, txn.deleting.value), minted, row.user, row.problem, row.origin, row.track, rubric,
                  CarriedModel(row.model, TierOf(env, row.user), hasLocal), now)
  }

  /** Reset: likewise. What can slip in is a session that was created and completed in between; an
      active one would be refused by the unique index. */
  lemma ResetIsSerialIff(env: Env, w: World, t: Tid, minted: Sid, rubric: string, hasLocal: bool, now: int)
    requires t in w.inflight && w.inflight[t].Resetting? && w.inflight[t].deleting.Some? && DoomedSelected(w, t)
    requires minted !in w.db.Keys
    ensures var txn := w.inflight[t]; var tier := TierOf(env, txn.seen.row.user);
            AfterReset(env, w, t, minted, rubric, hasLocal, now) == Serial(w.db, OpReset(txn.sid, minted, rubric, tier, hasLocal, now))
            <==> Missed(w, CommitReset(t, minted, rubric, hasLocal, now)) == {}
  {
    var txn := w.inflight[t];
    ResetDiffersIff(w.db, txn.seen.row, txn.deleting.value, minted, rubric,
                    TierOf(env, txn.seen.row.user), hasLocal, now);
  }

  lemma ResetDiffersIff(db: Db, row: Row, doomed: set<Sid>, minted: Sid, rubric: string, tier: Tier, hasLocal: bool, now: int)
    requires doomed <= RowsFor(db, row.user, row.problem) && minted !in db.Keys
    ensures CreateSession(Without(db, doomed), minted, row.user, row.problem, row.origin, row.track, rubric,
                          CarriedModel(row.model, tier, hasLocal), now)
         == ResetOf(db, row, minted, rubric, tier, hasLocal, now)
        <==> RowsFor(db, row.user, row.problem) - doomed == {}
  {
    var all := RowsFor(db, row.user, row.problem);
    var entry := CarriedModel(row.model, tier, hasLocal);
    WithoutIsInjective(db, doomed, all);
    WithoutKeys(db, doomed);
    WithoutKeys(db, all);
    InsertIsInjective(Without(db, doomed), Without(db, all), minted,
                      NewSession(row.user, row.problem, row.origin, row.track, rubric, Some(entry.key), TransportOf(entry), now));
  }

  lemma OnlyCompletedSlipsPastReset(env: Env, w: World, a: Action)
    requires a.CommitReset? && Enabled(env, w, a)
    ensures forall sid :: sid in Missed(w, a) ==> w.db[sid].row.status == Completed
  {
    forall sid | sid in Missed(w, a) ensures w.db[sid].row.status == Completed {
      assert sid in Without(w.db, w.inflight[a.t].deleting.value);
    }
  }

  lemma InsertIsInjective(a: Db, b: Db, sid: Sid, s: Session)
    requires sid !in a && sid !in b
    ensures a[sid := s] == b[sid := s] <==> a == b
  {
    if a[sid := s] == b[sid := s] {
      assert a[sid := s].Keys - {sid} == a.Keys && b[sid := s].Keys - {sid} == b.Keys;
      forall x | x in a ensures a[x] == b[x] {
        assert a[sid := s][x] == b[sid := s][x];
      }
    }
  }

  // ---------------------------------------------------------------- whole runs

  predicate Commits(a: Action) {
    || a.CommitServer? || a.CommitPosted? || a.CommitReply? || a.CommitSwitch? || a.CommitCreate?
    || a.CommitReset? || a.CommitErase? || a.FollowUp?
  }

  /** The entry a commit makes in the log. */
  ghost function OpOf(env: Env, w: World, a: Action): Op
    requires Enabled(env, w, a) && Commits(a)
  {
    match a
    case FollowUp(t) => OpFollow(w.inflight[t].sid, w.inflight[t].pending.value)
    case CommitServer(t, minted, verdict, outcome, now, _) => OpServer(w.inflight[t].req, minted, verdict, outcome, now)
    case CommitPosted(t) => OpByok(w.inflight[t].sid, w.inflight[t].turn, w.inflight[t].seen.row.step)
    case CommitReply(t) => OpReply(w.inflight[t].sid, w.inflight[t].reply)
    case CommitSwitch(t, now) => OpSwitch(w.inflight[t].sid, w.inflight[t].entry, now)
    case CommitCreate(minted, user, problem, origin, track, rubric, requested, hasLocal, now) =>
      OpCreate(minted, user, problem, origin, track, rubric, ValidateChoice(requested, TierOf(env, user), hasLocal).value, now)
    case CommitReset(t, minted, rubric, hasLocal, now) =>
      OpReset(w.inflight[t].sid, minted, rubric, TierOf(env, w.inflight[t].seen.row.user), hasLocal, now)
    case CommitErase(t) => if w.inflight[t].Clearing? then OpClear(w.inflight[t].user) else OpPurge(w.inflight[t].now)
  }

  /** Every commit appends itself to the log; every other step leaves store and log alone. */
  lemma OnlyCommitsWrite(env: Env, w: World, a: Action)
    requires Enabled(env, w, a)
    ensures Commits(a) ==> Perform(env, w, a).log == w.log + [OpOf(env, w, a)]
    ensures !Commits(a) ==> Perform(env, w, a).db == w.db && Perform(env, w, a).log == w.log
  {
  }

  lemma ServerCommitIsSerialIff(env: Env, w: World, a: Action)
    requires Inv(AnyRun, env, w) && Enabled(env, w, a) && a.CommitServer?
    ensures Perform(env, w, a).db == Serial(w.db, OpOf(env, w, a)) <==> LosesNothing(w, a)
  {
    LandedTurnIsSerialIff(env, w, a.t, a.minted, a.verdict, a.outcome, a.now);
  }

  lemma PostedCommitIsSerial(env: Env, w: World, a: Action)
    requires Inv(AnyRun, env, w) && Enabled(env, w, a) && a.CommitPosted?
    ensures Perform(env, w, a).db == Serial(w.db, OpOf(env, w, a))
  {
    PostedTurnIsSerial(env, w, a.t);
  }

  lemma RowCommitIsSerial(env: Env, w: World, a: Action)
    requires Inv(AnyRun, env, w) && Enabled(env, w, a) && (a.CommitReply? || a.CommitSwitch?)
    ensures Perform(env, w, a).db == Serial(w.db, OpOf(env, w, a))
  {
    if a.CommitReply? { ReplyIsSerial(env, w, a.t); } else { SwitchIsSerial(env, w, a.t, a.now); }
  }

  lemma PlainCommitIsSerial(env: Env, w: World, a: Action)
    requires Enabled(env, w, a) && (a.CommitCreate? || a.FollowUp?)
    ensures Perform(env, w, a).db == Serial(w.db, OpOf(env, w, a))
  {
  }

  lemma DeleteCommitIsSerialIff(env: Env, w: World, a: Action)
    requires Inv(AnyRun, env, w) && Enabled(env, w, a) && (a.CommitReset? || a.CommitErase?)
    ensures Perform(env, w, a).db == Serial(w.db, OpOf(env, w, a)) <==> Missed(w, a) == {}
  {
    DoomedAreSelected(env, w, a.t);
    match a
    case CommitReset(t, minted, rubric, hasLocal, now) => ResetIsSerialIff(env, w, t, minted, rubric, hasLocal, now);
    case CommitErase(t) => EraseIsSerialIff(w, t);
  }

  /** In every run a commit is serial if and only if no row slipped past its DELETE and, for a server turn,
      nothing of its row is lost. Only reset, clear-all and purge can miss any row. */
  lemma CommitIsSerialIff(env: Env, w: World, a: Action)
    requires Inv(AnyRun, env, w) && Enabled(env, w, a) && Commits(a)
    ensures Perform(env, w, a).db == Serial(w.db, OpOf(env, w, a)) <==> Missed(w, a) == {} && LosesNothing(w, a)
  {
    if a.CommitServer? { ServerCommitIsSerialIff(env, w, a); } else { OtherCommitIsSerialIff(env, w, a); }
  }

  lemma OtherCommitIsSerialIff(env: Env, w: World, a: Action)
    requires Inv(AnyRun, env, w) && Enabled(env, w, a) && Commits(a) && !a.CommitServer?
    ensures Perform(env, w, a).db == Serial(w.db, OpOf(env, w, a)) <==> Missed(w, a) == {}
  {
    if a.CommitPosted? {
      PostedCommitIsSerial(env, w, a);
    } else if a.CommitReset? || a.CommitErase? {
      DeleteCommitIsSerialIff(env, w, a);
    } else if a.CommitCreate? || a.FollowUp? {
      PlainCommitIsSerial(env, w, a);
    } else {
      RowCommitIsSerial(env, w, a);
    }
  }

  ghost predicate NothingMissed(env: Env, run: seq<Action>)
    requires IsRun(env, run)
  {
    run == [] || (NothingMissed(env, run[..|run| - 1]) && Missed(After(env, run[..|run| - 1]), run[|run| - 1]) == {})
  }

  /** At every moment of the run the store is that of the committed transactions run one by one. */
  ghost predicate SerialThroughout(env: Env, run: seq<Action>)
    requires IsRun(env, run)
  {
    run == [] || (SerialThroughout(env, run[..|run| - 1]) && After(env, run).db == SerialRun(After(env, run).log))
  }

  /** Serialisability, exactly: under every interleaving and with every staleness of reads, the store is
      throughout the run that of the committed transactions run one by one if and only if no row slips
      past a DELETE and no server turn loses what another did to its row. */
  lemma {:induction false} RunsAreSerialisableIff(env: Env, run: seq<Action>)
    requires IsRun(env, run)
    ensures SerialThroughout(env, run) <==> NothingMissed(env, run) && NothingIsLost(env, run)
    ensures SerialThroughout(env, run) ==> After(env, run).db == SerialRun(After(env, run).log)
  {
    if run != [] {
      var before, a := run[..|run| - 1], run[|run| - 1];
      RunsAreSerialisableIff(env, before);
      RunKeepsInv(AnyRun, env, before);
      if SerialThroughout(env, before) { StepIsSerialIff(env, After(env, before), a); }
    }
  }

  lemma StepIsSerialIff(env: Env, w: World, a: Action)
    requires Inv(AnyRun, env, w) && Enabled(env, w, a) && w.db == SerialRun(w.log)
    ensures Perform(env, w, a).db == SerialRun(Perform(env, w, a).log) <==> Missed(w, a) == {} && LosesNothing(w, a)
  {
    OnlyCommitsWrite(env, w, a);
    if Commits(a) {
      CommitIsSerialIff(env, w, a);
      SerialRunSnoc(w.log, OpOf(env, w, a));
    }
  }

  lemma SerialRunSnoc(ops: seq<Op>, op: Op)
    ensures SerialRun(ops + [op]) == Serial(SerialRun(ops), op)
  {
    assert (ops + [op])[..|ops|] == ops;
  }

  /** In particular where no row slips past a DELETE and no reflected row lowers a version. */
  lemma {:induction false} OrderedRunsAreSerialisable(env: Env, run: seq<Action>)
    requires IsRun(env, run) && NothingMissed(env, run) && NothingLowered(env, run)
    ensures After(env, run).db == SerialRun(After(env, run).log)
  {
    OrderedRunsLoseNothing(env, run);
    RunsAreSerialisableIff(env, run);
    if run == [] { assert START.db == SerialRun([]); }
  }
}
