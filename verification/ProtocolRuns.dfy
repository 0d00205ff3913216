/** Runs: the invariant holds in every reachable world. */
module ProtocolRuns {
  import opened Wrappers
  import opened Fsm
  import opened Catalog
  import opened Store
  import opened Quotas
  import opened Turns
  import opened SessionLaws
  import opened LastingLaws
  import opened ExactLaws
  import opened Protocol
  import opened ProtocolLaws
  import opened ProtocolSteps
  import opened ProtocolCommits

  lemma BeginKeepsInv(kind: Kind, env: Env, w: World, t: Tid, txn: Txn)
    requires Inv(kind, env, w) && TxnOk(kind, env, w, txn) && LocksOnlyFree(w, t, txn) && OwesAlready(w, t, txn)
    ensures Inv(kind, env, Put(w, t, txn))
  {
    assert w.exposed == w.exposed + [];
    PutKeepsInv(kind, env, w, Put(w, t, txn), t, txn, []);
  }

  lemma LocksOneFree(w: World, t: Tid, txn: Txn, sid: Sid)
    requires Free(w, t, sid) && forall x :: Holds(txn, x) ==> x == sid
    ensures LocksOnlyFree(w, t, txn)
  {
  }

  /** A transaction that locks one row, reads it, and has written nothing yet. */
  lemma LockKeepsInv(kind: Kind, env: Env, w: World, t: Tid, txn: Txn, sid: Sid)
    requires Inv(kind, env, w) && TxnOk(kind, env, w, txn) && Free(w, t, sid) && !txn.Owing? && !txn.Replying?
    requires forall x :: Holds(txn, x) ==> x == sid
    ensures Inv(kind, env, Put(w, t, txn))
  {
    LocksOneFree(w, t, txn, sid);
    OwesNothing(w, t, txn);
    BeginKeepsInv(kind, env, w, t, txn);
  }

  lemma LocksNothing(w: World, t: Tid, txn: Txn)
    requires forall x :: !Holds(txn, x)
    ensures LocksOnlyFree(w, t, txn)
  {
  }

  lemma ReadIsOk(kind: Kind, env: Env, w: World, req: TurnReq, url: Sid)
    requires StoreOk(kind, w) && url in w.db && !w.db[url].row.byok
    ensures TxnOk(kind, env, w, Addressed(req, url, w.db[url]))
  {
    PresentIsPast(kind, w, url);
  }

  lemma ReadKeepsInv(kind: Kind, env: Env, w: World, t: Tid, req: TurnReq, url: Sid)
    requires Inv(kind, env, w) && url in w.db && !w.db[url].row.byok
    ensures Inv(kind, env, Put(w, t, Addressed(req, url, w.db[url])))
  {
    var txn := Addressed(req, url, w.db[url]);
    ReadIsOk(kind, env, w, req, url);
    LocksNothing(w, t, txn);
    OwesNothing(w, t, txn);
    BeginKeepsInv(kind, env, w, t, txn);
  }

  lemma LockedPostIsOk(kind: Kind, env: Env, w: World, sid: Sid, turn: Turn)
    requires StoreOk(kind, w) && sid in w.db
    requires w.db[sid].row.byok && w.db[sid].row.status == Active && UnderQuota(env, w.db[sid].row.user, w.db[sid])
    requires turn.judge == Client && turn.reply.Some?
    ensures TxnOk(kind, env, w, Posted(sid, turn, w.db[sid], None))
  {
    PresentIsPast(kind, w, sid);
  }

  lemma LockPostedKeepsInv(kind: Kind, env: Env, w: World, t: Tid, sid: Sid, turn: Turn)
    requires Inv(kind, env, w) && sid in w.db && Free(w, t, sid)
    requires w.db[sid].row.byok && w.db[sid].row.status == Active && UnderQuota(env, w.db[sid].row.user, w.db[sid])
    requires turn.judge == Client && turn.reply.Some?
    ensures Inv(kind, env, Put(w, t, Posted(sid, turn, w.db[sid], None)))
  {
    LockedPostIsOk(kind, env, w, sid, turn);
    LockKeepsInv(kind, env, w, t, Posted(sid, turn, w.db[sid], None), sid);
  }

  lemma LockedSwitchIsOk(kind: Kind, env: Env, w: World, sid: Sid, entry: Entry)
    requires StoreOk(kind, w) && sid in w.db && w.db[sid].row.status == Active && ByKey(Some(entry.key)) == Some(entry)
    ensures TxnOk(kind, env, w, Switching(sid, w.db[sid], entry))
  {
    PresentIsPast(kind, w, sid);
  }

  lemma LockSwitchKeepsInv(kind: Kind, env: Env, w: World, t: Tid, sid: Sid, entry: Entry)
    requires Inv(kind, env, w) && sid in w.db && Free(w, t, sid) && w.db[sid].row.status == Active
    requires ByKey(Some(entry.key)) == Some(entry)
    ensures Inv(kind, env, Put(w, t, Switching(sid, w.db[sid], entry)))
  {
    LockedSwitchIsOk(kind, env, w, sid, entry);
    LockKeepsInv(kind, env, w, t, Switching(sid, w.db[sid], entry), sid);
  }

  lemma LockedResetIsOk(kind: Kind, env: Env, w: World, sid: Sid)
    requires StoreOk(kind, w) && sid in w.db
    ensures TxnOk(kind, env, w, Resetting(sid, w.db[sid], None))
  {
    PresentIsPast(kind, w, sid);
  }

  lemma LockResetKeepsInv(kind: Kind, env: Env, w: World, t: Tid, sid: Sid)
    requires Inv(kind, env, w) && sid in w.db && Free(w, t, sid)
    ensures Inv(kind, env, Put(w, t, Resetting(sid, w.db[sid], None)))
  {
    LockedResetIsOk(kind, env, w, sid);
    LockKeepsInv(kind, env, w, t, Resetting(sid, w.db[sid], None), sid);
  }

  lemma SameLocksStayFree(w: World, t: Tid, txn: Txn)
    requires Exclusive(w) && t in w.inflight && forall sid :: Holds(txn, sid) ==> Holds(w.inflight[t], sid)
    ensures LocksOnlyFree(w, t, txn)
  {
    forall u | u in w.inflight && u != t ensures NothingShared(txn, w.inflight[u]) {
      forall sid ensures !(Holds(txn, sid) && Holds(w.inflight[u], sid)) {
        assert Holds(txn, sid) ==> Holds(w.inflight[t], sid);
      }
    }
  }

  lemma LandingKeepsInv(kind: Kind, env: Env, w: World, t: Tid, now: int)
    requires Inv(kind, env, w) && Enabled(env, w, LandTurn(t, now))
    ensures var txn := w.inflight[t];
            Inv(kind, env, Put(w, t, Landed(txn.req, txn.url, LandedTarget(w, txn), LandedSession(w, txn, now), None)))
  {
    var txn := w.inflight[t];
    var landed := Landed(txn.req, txn.url, LandedTarget(w, txn), LandedSession(w, txn, now), None);
    LandedIsOk(kind, env, w, t, now);
    if landed.target.Existing? { LocksOneFree(w, t, landed, landed.target.sid); } else { LocksNothing(w, t, landed); }
    OwesNothing(w, t, landed);
    BeginKeepsInv(kind, env, w, t, landed);
  }

  lemma AppendPostedKeepsInv(kind: Kind, env: Env, w: World, t: Tid, moved: Txn)
    requires Inv(kind, env, w) && t in w.inflight && w.inflight[t].Posted? && w.inflight[t].sid in w.db
    requires moved == Posted(w.inflight[t].sid, w.inflight[t].turn, w.inflight[t].seen, Some(NextSeq(w.db[w.inflight[t].sid])))
    ensures Inv(kind, env, Put(w, t, moved))
  {
    PostedIsOk(kind, env, w, t);
    HeldIsFree(w, t, moved.sid);
    LockKeepsInv(kind, env, w, t, moved, moved.sid);
  }

  lemma BeginReplyKeepsInv(kind: Kind, env: Env, w: World, t: Tid, content: string)
    requires Inv(kind, env, w) && t in w.inflight && w.inflight[t].Owing? && w.inflight[t].sid in w.db
    ensures var txn := w.inflight[t];
            Inv(kind, env, Put(w, t, Replying(txn.sid, Message(Coach, txn.step, content, None, txn.model), NextSeq(w.db[txn.sid]))))
  {
    var txn := w.inflight[t];
    var replying := Replying(txn.sid, Message(Coach, txn.step, content, None, txn.model), NextSeq(w.db[txn.sid]));
    ReplyingIsOk(kind, env, w, t, content);
    LocksNothing(w, t, replying);
    BeginKeepsInv(kind, env, w, t, replying);
  }

  lemma AskingKeepsInv(kind: Kind, env: Env, w: World, t: Tid)
    requires Inv(kind, env, w) && t in w.inflight && w.inflight[t].Landed? && TargetNow(w, w.inflight[t]).Some?
    ensures var txn := w.inflight[t];
            Inv(kind, env, Put(w, t, Appended(txn, NextSeq(TargetNow(w, txn).value))).(exposed := w.exposed + [ExposedTo(txn)]))
  {
    var txn := w.inflight[t];
    AnsweredIsOk(kind, env, w, t);
    SameLocksStayFree(w, t, Appended(txn, NextSeq(TargetNow(w, txn).value)));
    var moved := Appended(txn, NextSeq(TargetNow(w, txn).value));
    OwesNothing(w, t, moved);
    PutKeepsInv(kind, env, w, Put(w, t, moved).(exposed := w.exposed + [ExposedTo(txn)]), t, moved, [ExposedTo(txn)]);
  }

  lemma DoomedAreFree(w: World, t: Tid, txn: Txn, doomed: set<Sid>)
    requires AllFree(w, t, doomed) && forall sid :: Holds(txn, sid) ==> sid in doomed || Free(w, t, sid)
    ensures LocksOnlyFree(w, t, txn)
  {
    forall u | u in w.inflight && u != t ensures NothingShared(txn, w.inflight[u]) {
    }
  }

  lemma DeleteForResetKeepsInv(kind: Kind, env: Env, w: World, t: Tid, moved: Txn)
    requires Inv(kind, env, w) && t in w.inflight && w.inflight[t].Resetting?
    requires moved.Resetting? && moved == Resetting(w.inflight[t].sid, w.inflight[t].seen, moved.deleting)
    requires moved.deleting.Some? && moved.sid in moved.deleting.value
    requires MayDelete(w, t, moved.deleting.value, RowsFor(w.db, moved.seen.row.user, moved.seen.row.problem))
    ensures Inv(kind, env, Put(w, t, moved))
  {
    var txn := w.inflight[t];
    assert TxnOk(kind, env, w, txn);
    HeldIsFree(w, t, txn.sid);
    DoomedAreFree(w, t, moved, moved.deleting.value);
    OwesNothing(w, t, moved);
    BeginKeepsInv(kind, env, w, t, moved);
  }

  lemma DeletingKeepsInv(kind: Kind, env: Env, w: World, t: Tid, moved: Txn)
    requires Inv(kind, env, w) && t !in w.inflight && (moved.Clearing? || moved.Purging?)
    requires TxnOk(kind, env, w, moved) && AllFree(w, t, moved.doomed)
    ensures Inv(kind, env, Put(w, t, moved))
  {
    DoomedAreFree(w, t, moved, moved.doomed);
    OwesNothing(w, t, moved);
    BeginKeepsInv(kind, env, w, t, moved);
  }

  lemma ServerCommitKeepsInv(kind: Kind, env: Env, w: World, a: Action)
    requires Inv(kind, env, w) && Enabled(env, w, a) && a.CommitServer? && Befits(kind, w, a)
    ensures Inv(kind, env, Perform(env, w, a))
  {
    CommitServerKeepsInv(kind, env, w, Perform(env, w, a), a.t, a.minted, TurnOf(w.inflight[a.t], a.verdict, a.outcome, a.now), a.cited);
  }

  lemma PostedCommitKeepsInv(kind: Kind, env: Env, w: World, a: Action)
    requires Inv(kind, env, w) && Enabled(env, w, a) && a.CommitPosted?
    ensures Inv(kind, env, Perform(env, w, a))
  {
    CommitPostedKeepsInv(kind, env, w, Perform(env, w, a), a.t);
  }

  lemma RowCommitKeepsInv(kind: Kind, env: Env, w: World, a: Action)
    requires Inv(kind, env, w) && Enabled(env, w, a) && (a.CommitReply? || a.CommitSwitch?)
    ensures Inv(kind, env, Perform(env, w, a))
  {
    if a.CommitReply? {
      CommitReplyKeepsInv(kind, env, w, Perform(env, w, a), a.t);
    } else {
      CommitSwitchKeepsInv(kind, env, w, Perform(env, w, a), a.t, a.now);
    }
  }

  lemma CreateKeepsInv(kind: Kind, env: Env, w: World, a: Action)
    requires Inv(kind, env, w) && Enabled(env, w, a) && a.CommitCreate?
    ensures Inv(kind, env, Perform(env, w, a))
  {
    ChoicesAreCatalogEntries(a.requested, TierOf(env, a.user), a.hasLocal);
    NewSessionIsInserted(kind, env, w, Perform(env, w, a), a.minted, a.user, a.problem, a.origin, a.track, a.rubric,
                         ValidateChoice(a.requested, TierOf(env, a.user), a.hasLocal).value, a.now);
  }

  lemma ResetKeepsInv(kind: Kind, env: Env, w: World, a: Action)
    requires Inv(kind, env, w) && Enabled(env, w, a) && a.CommitReset?
    ensures Inv(kind, env, Perform(env, w, a))
  {
    CommitResetKeepsInv(kind, env, w, Perform(env, w, a), a.t, a.minted, a.rubric, a.hasLocal, a.now);
  }

  lemma EraseCommitKeepsInv(kind: Kind, env: Env, w: World, a: Action)
    requires Inv(kind, env, w) && Enabled(env, w, a) && a.CommitErase?
    ensures Inv(kind, env, Perform(env, w, a))
  {
    EraseKeepsInv(kind, env, w, Perform(env, w, a), a.t, w.inflight[a.t].doomed);
  }

  lemma DeleteKeepsInv(kind: Kind, env: Env, w: World, a: Action)
    requires Inv(kind, env, w) && Enabled(env, w, a) && (a.DeleteForReset? || a.DeleteForClear? || a.DeleteForPurge?)
    ensures Inv(kind, env, Perform(env, w, a))
  {
    if a.DeleteForReset? {
      var txn := w.inflight[a.t];
      DeleteForResetKeepsInv(kind, env, w, a.t, Resetting(txn.sid, txn.seen, Some(a.doomed)));
    } else if a.DeleteForClear? {
      DeletingKeepsInv(kind, env, w, a.t, Clearing(a.user, a.doomed));
    } else {
      DeletingKeepsInv(kind, env, w, a.t, Purging(a.now, a.doomed));
    }
  }

  lemma ReadingKeepsInv(kind: Kind, env: Env, w: World, a: Action)
    requires Inv(kind, env, w) && Enabled(env, w, a) && (a.ReadAddressed? || a.LockPosted? || a.LockSwitch? || a.LockReset?)
    ensures Inv(kind, env, Perform(env, w, a))
  {
    if a.ReadAddressed? {
      ReadKeepsInv(kind, env, w, a.t, a.req, a.url);
    } else if a.LockPosted? {
      LockPostedKeepsInv(kind, env, w, a.t, a.sid, a.turn);
    } else if a.LockSwitch? {
      ChoicesAreCatalogEntries(a.requested, TierOf(env, a.user), a.hasLocal);
      LockSwitchKeepsInv(kind, env, w, a.t, a.sid, ValidateChoice(a.requested, TierOf(env, a.user), a.hasLocal).value);
    } else if a.LockReset? {
      LockResetKeepsInv(kind, env, w, a.t, a.sid);
    }
  }

  /** Every enabled step keeps the invariant; all but a turn that loses something keep the exact laws; and all
      but a flush that lowers a version keep these and the order of versions. */
  lemma StepKeepsInv(kind: Kind, env: Env, w: World, a: Action)
    requires Inv(kind, env, w) && Enabled(env, w, a) && Befits(kind, w, a)
    ensures Inv(kind, env, Perform(env, w, a))
  {
    if a.ReadAddressed? || a.LockPosted? || a.LockSwitch? || a.LockReset? {
      ReadingKeepsInv(kind, env, w, a);
    } else if a.LandTurn? {
      LandingKeepsInv(kind, env, w, a.t, a.now);
    } else if a.AppendPosted? {
      var txn := w.inflight[a.t];
      AppendPostedKeepsInv(kind, env, w, a.t, Posted(txn.sid, txn.turn, txn.seen, Some(NextSeq(w.db[txn.sid]))));
    } else if a.BeginReply? {
      BeginReplyKeepsInv(kind, env, w, a.t, a.content);
    } else if a.AppendAnswer? {
      AskingKeepsInv(kind, env, w, a.t);
    } else if a.DeleteForReset? || a.DeleteForClear? || a.DeleteForPurge? {
      DeleteKeepsInv(kind, env, w, a);
    } else if a.Bundle? {
      PresentIsExposable(kind, w, a.sid);
      ShowKeepsInv(kind, env, w, Exposure(Some(a.sid), a.step, w.db[a.sid]));
    } else if a.Abandon? {
      AbandonKeepsInv(kind, env, w, a.t);
    } else if a.FollowUp? {
      FollowUpKeepsInv(kind, env, w, a.t);
    } else {
      CommitKeepsInv(kind, env, w, a);
    }
  }

  lemma CommitKeepsInv(kind: Kind, env: Env, w: World, a: Action)
    requires Inv(kind, env, w) && Enabled(env, w, a) && Befits(kind, w, a)
    requires || a.CommitServer? || a.CommitPosted? || a.CommitReply? || a.CommitSwitch? || a.CommitCreate?
             || a.CommitReset? || a.CommitErase?
    ensures Inv(kind, env, Perform(env, w, a))
  {
    if a.CommitServer? {
      ServerCommitKeepsInv(kind, env, w, a);
    } else if a.CommitPosted? {
      PostedCommitKeepsInv(kind, env, w, a);
    } else if a.CommitCreate? {
      CreateKeepsInv(kind, env, w, a);
    } else if a.CommitReset? {
      ResetKeepsInv(kind, env, w, a);
    } else if a.CommitErase? {
      EraseCommitKeepsInv(kind, env, w, a);
    } else {
      RowCommitKeepsInv(kind, env, w, a);
    }
  }

  /** The exact condition for the row, the log and the gate table to agree: a server turn that commits to a
      store in which they do leaves such a store if and only if it loses nothing. */
  lemma ServerCommitFoldsIff(env: Env, w: World, a: Action)
    requires Inv(LosslessRun, env, w) && Enabled(env, w, a) && a.CommitServer?
    ensures Inv(LosslessRun, env, Perform(env, w, a)) <==> LosesNothing(w, a)
    ensures StoreFolds(Perform(env, w, a).db) <==> LosesNothing(w, a)
  {
    if LosesNothing(w, a) {
      ServerCommitKeepsInv(LosslessRun, env, w, a);
      InvFolds(env, Perform(env, w, a));
    } else {
      LosingTurnUnfolds(env, w, a);
    }
  }

  /** Every row is the fold of its log. */
  ghost predicate StoreFolds(db: Db) {
    forall sid :: sid in db ==> RowFoldsLog(db[sid])
  }

  lemma InvFolds(env: Env, w: World)
    requires Inv(LosslessRun, env, w)
    ensures StoreFolds(w.db)
  {
    forall sid | sid in w.db ensures RowFoldsLog(w.db[sid]) {
      assert SessionOk(LosslessRun, w.db[sid]);
    }
  }

  lemma LosingTurnUnfolds(env: Env, w: World, a: Action)
    requires Inv(LosslessRun, env, w) && Enabled(env, w, a) && a.CommitServer? && !LosesNothing(w, a)
    ensures var sid := SidOf(w.inflight[a.t], a.minted);
            sid in Perform(env, w, a).db && !RowFoldsLog(Perform(env, w, a).db[sid])
            && !SessionOk(LosslessRun, Perform(env, w, a).db[sid])
  {
    var txn := w.inflight[a.t];
    var s, at := TargetNow(w, txn).value, txn.placed.value;
    var turn := TurnOf(txn, a.verdict, a.outcome, a.now);
    LandedFits(LosslessRun, env, w, a.t, turn);
    var t := RecordTurn(s, txn.seen.row, at, turn);
    RecordTurnWrites(s, txn.seen.row, at, turn);
    TurnFoldsIff(s, txn.seen.row, t, at, turn);
  }

  /** The exact condition for versions to stay in order: a flush of a reflected row, which always leaves rows
      and logs in agreement, leaves versions in order if and only if it lowers none. */
  lemma FollowUpKeepsInvIff(env: Env, w: World, t: Tid)
    requires Inv(OrderedRun, env, w) && Enabled(env, w, FollowUp(t))
    ensures Inv(OrderedRun, env, Perform(env, w, FollowUp(t))) <==> LowersNothing(w, FollowUp(t))
  {
    var txn := w.inflight[t];
    if LowersNothing(w, FollowUp(t)) {
      FollowUpKeepsInv(OrderedRun, env, w, t);
    } else {
      assert TxnOk(OrderedRun, env, w, txn);
      FollowUpKeepsOrderIff(w.db[txn.sid], txn.pending.value);
      assert !SessionOk(OrderedRun, Perform(env, w, FollowUp(t)).db[txn.sid]);
    }
  }

  /** The invariant holds after every run, with the exact laws after every run in which nothing is lost, and
      with the order of versions after every run in which none is lowered. */
  lemma {:induction false} RunKeepsInv(kind: Kind, env: Env, run: seq<Action>)
    requires IsRun(env, run) && IsOfKind(kind, env, run)
    ensures Inv(kind, env, After(env, run))
  {
    if run == [] {
      assert Pending(START.inflight, 0) == {};
    } else {
      RunKeepsInv(kind, env, run[..|run| - 1]);
      StepKeepsInv(kind, env, After(env, run[..|run| - 1]), run[|run| - 1]);
    }
  }

  /** Where versions are in order nothing is lost. */
  lemma {:induction false} OrderedRunsLoseNothing(env: Env, run: seq<Action>)
    requires IsRun(env, run) && NothingLowered(env, run)
    ensures NothingIsLost(env, run)
  {
    if run != [] {
      var before, a := run[..|run| - 1], run[|run| - 1];
      OrderedRunsLoseNothing(env, before);
      RunKeepsInv(OrderedRun, env, before);
      if a.CommitServer? { OrderedTurnLosesNothing(env, After(env, before), a); }
    }
  }

  lemma OrderedTurnLosesNothing(env: Env, w: World, a: Action)
    requires Inv(OrderedRun, env, w) && Enabled(env, w, a) && a.CommitServer?
    ensures LosesNothing(w, a)
  {
    LandedFits(OrderedRun, env, w, a.t, TurnOf(w.inflight[a.t], a.verdict, a.outcome, a.now));
  }

  /** At every moment of the run every row is the fold of its log. */
  ghost predicate FoldsThroughout(env: Env, run: seq<Action>)
    requires IsRun(env, run)
  {
    run == [] || (FoldsThroughout(env, run[..|run| - 1]) && StoreFolds(After(env, run).db))
  }

  /** Log refinement, exactly: throughout a run every row is the fold of its log if and only if no server
      turn of the run loses what another did to its row. */
  lemma {:induction false} FoldsThroughoutIff(env: Env, run: seq<Action>)
    requires IsRun(env, run)
    ensures FoldsThroughout(env, run) <==> NothingIsLost(env, run)
  {
    if run != [] {
      var before, a := run[..|run| - 1], run[|run| - 1];
      FoldsThroughoutIff(env, before);
      if NothingIsLost(env, before) {
        RunKeepsInv(LosslessRun, env, before);
        if a.CommitServer? {
          ServerCommitFoldsIff(env, After(env, before), a);
        } else {
          StepKeepsInv(LosslessRun, env, After(env, before), a);
          InvFolds(env, After(env, run));
        }
      }
    }
  }
}
