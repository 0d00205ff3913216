/** Who writes what: over whole runs, the sessions of one user are written, removed and shown to a model
    only by requests of that user, or removed by a purge after they have lapsed. */
module Ownership {
  import opened Wrappers
  import opened Store
  import opened Quotas
  import opened SessionLaws
  import opened Protocol
  import opened ProtocolLaws
  import opened ProtocolRuns
  import opened ProtocolGrowth

  /** The action takes a slot for a new transaction. */
  predicate Begins(a: Action) {
    a.ReadAddressed? || a.LockPosted? || a.LockSwitch? || a.LockReset? || a.DeleteForClear? || a.DeleteForPurge?
  }

  /** On whose behalf: a purge has no user. */
  function RequestedBy(a: Action): Option<string> {
    match a
    case ReadAddressed(_, req, _) => Some(req.user)
    case LockPosted(_, user, _, _, _) => Some(user)
    case LockSwitch(_, user, _, _, _) => Some(user)
    case LockReset(_, user, _) => Some(user)
    case DeleteForClear(_, user, _) => Some(user)
    case _ => None
  }

  /** The user whose request last took slot t. */
  function AskedBy(run: seq<Action>, t: Tid): Option<string> {
    if run == [] then None
    else
      var a := run[|run| - 1];
      if Begins(a) && a.t == t then RequestedBy(a) else AskedBy(run[..|run| - 1], t)
  }

  ghost predicate Owns(w: World, sid: Sid, user: Option<string>) {
    sid in w.used && (sid in w.db ==> user == Some(w.db[sid].row.user))
  }

  ghost predicate ActsFor(w: World, txn: Txn, user: Option<string>) {
    match txn
    case Addressed(req, url, seen) => user == Some(req.user) == Some(seen.row.user)
    case Landed(req, _, target, seen, _) =>
      user == Some(req.user) == Some(seen.row.user) && (target.Existing? ==> Owns(w, target.sid, user))
    case Posted(sid, _, _, _) => Owns(w, sid, user)
    case Owing(sid, _, _, _, _) => Owns(w, sid, user)
    case Replying(sid, _, _) => Owns(w, sid, user)
    case Switching(sid, _, _) => Owns(w, sid, user)
    case Resetting(sid, seen, _) => Owns(w, sid, user) && user == Some(seen.row.user)
    case Clearing(clearer, _) => user == Some(clearer)
    case Purging(_, _) => true
  }

  ghost predicate AllActFor(w: World, run: seq<Action>) {
    forall t :: t in w.inflight ==> ActsFor(w, w.inflight[t], AskedBy(run, t))
  }

  // ---------------------------------------------------------------- what a step keeps

  lemma OwnsIsKept(w: World, w': World, sid: Sid, user: Option<string>)
    requires Steady(AnyRun, w, w') && Owns(w, sid, user)
    ensures Owns(w', sid, user)
  {
  }

  lemma ActsForIsKept(w: World, w': World, txn: Txn, user: Option<string>)
    requires Steady(AnyRun, w, w') && ActsFor(w, txn, user)
    ensures ActsFor(w', txn, user)
  {
    match txn
    case Landed(_, _, target, _, _) => if target.Existing? { OwnsIsKept(w, w', target.sid, user); }
    case Posted(sid, _, _, _) => OwnsIsKept(w, w', sid, user);
    case Owing(sid, _, _, _, _) => OwnsIsKept(w, w', sid, user);
    case Replying(sid, _, _) => OwnsIsKept(w, w', sid, user);
    case Switching(sid, _, _) => OwnsIsKept(w, w', sid, user);
    case Resetting(sid, _, _) => OwnsIsKept(w, w', sid, user);
    case _ =>
  }

  lemma LandsForOwner(env: Env, w: World, a: Action, user: Option<string>)
    requires Enabled(env, w, a) && a.LandTurn? && w.db.Keys <= w.used && ActsFor(w, w.inflight[a.t], user)
    ensures ActsFor(Perform(env, w, a), Perform(env, w, a).inflight[a.t], user)
  {
    LandsOnOwn(w, w.inflight[a.t], a.now, user);
  }

  lemma LandsOnOwn(w: World, txn: Txn, now: int, user: Option<string>)
    requires txn.Addressed? && w.db.Keys <= w.used && ActsFor(w, txn, user)
    ensures var target := LandedTarget(w, txn);
            && user == Some(LandedSession(w, txn, now).row.user)
            && (target.Existing? ==> Owns(w, target.sid, user))
  {
    var found := GetActive(w.db, txn.req.user, txn.req.problem);
    if found.Some? { assert found.value in w.db.Keys && IsActiveFor(w.db[found.value].row, txn.req.user, txn.req.problem); }
  }

  lemma CommitsForUser(env: Env, w: World, a: Action, user: Option<string>)
    requires Enabled(env, w, a) && a.CommitServer? && ActsFor(w, w.inflight[a.t], user)
    ensures var sid := SidOf(w.inflight[a.t], a.minted); user == Some(Perform(env, w, a).db[sid].row.user)
  {
    var txn := w.inflight[a.t];
    assert Perform(env, w, a).db[SidOf(txn, a.minted)].row.user == TargetNow(w, txn).value.row.user;
  }

  lemma CommitsForOwner(env: Env, w: World, a: Action, user: Option<string>)
    requires Enabled(env, w, a) && a.CommitServer? && ActsFor(w, w.inflight[a.t], user)
    ensures ActsFor(Perform(env, w, a), Perform(env, w, a).inflight[a.t], user)
  {
    CommitsForUser(env, w, a, user);
  }

  lemma BeginsForOwner(env: Env, w: World, a: Action)
    requires w.db.Keys <= w.used && Enabled(env, w, a) && Begins(a)
    ensures ActsFor(Perform(env, w, a), Perform(env, w, a).inflight[a.t], RequestedBy(a))
  {
    if !a.DeleteForClear? && !a.DeleteForPurge? {
      assert forall sid :: sid in w.db ==> sid in w.db.Keys;
    }
  }

  /** The slot that the action works in, if it leaves a transaction under way there. */
  function SlotOf(a: Action): Option<Tid> {
    if a.CommitCreate? || a.Bundle? then None else Some(a.t)
  }

  lemma OtherSlotsStay(env: Env, w: World, a: Action, t: Tid)
    requires Enabled(env, w, a) && SlotOf(a) != Some(t) && t in Perform(env, w, a).inflight
    ensures t in w.inflight && Perform(env, w, a).inflight[t] == w.inflight[t] && !(Begins(a) && a.t == t)
  {
  }

  lemma ContinuesForOwner(env: Env, w: World, a: Action, user: Option<string>)
    requires Enabled(env, w, a) && SlotOf(a).Some? && !Begins(a)
    requires !a.LandTurn? && !a.CommitServer?
    requires a.t in w.inflight && ActsFor(w, w.inflight[a.t], user) && a.t in Perform(env, w, a).inflight
    requires Steady(AnyRun, w, Perform(env, w, a))
    ensures ActsFor(Perform(env, w, a), Perform(env, w, a).inflight[a.t], user)
  {
    ActsForIsKept(w, Perform(env, w, a), w.inflight[a.t], user);
  }

  lemma OwnSlotActsForOwner(env: Env, w: World, a: Action, user: Option<string>)
    requires w.db.Keys <= w.used && Enabled(env, w, a) && SlotOf(a).Some? && !Begins(a) && a.t in w.inflight
    requires ActsFor(w, w.inflight[a.t], user) && TxnOk(AnyRun, env, w, w.inflight[a.t])
    requires Steady(AnyRun, w, Perform(env, w, a)) && a.t in Perform(env, w, a).inflight
    ensures ActsFor(Perform(env, w, a), Perform(env, w, a).inflight[a.t], user)
  {
    if a.LandTurn? {
      LandsForOwner(env, w, a, user);
    } else if a.CommitServer? {
      CommitsForOwner(env, w, a, user);
    } else {
      ContinuesForOwner(env, w, a, user);
    }
  }

  lemma SlotIsInFlight(env: Env, w: World, a: Action)
    requires Enabled(env, w, a) && SlotOf(a).Some? && !Begins(a)
    ensures a.t in w.inflight
  {
  }

  lemma StepActsForOwners(env: Env, w: World, a: Action, init: seq<Action>, t: Tid)
    requires w.db.Keys <= w.used && Enabled(env, w, a) && t in Perform(env, w, a).inflight
    requires t in w.inflight ==> ActsFor(w, w.inflight[t], AskedBy(init, t)) && TxnOk(AnyRun, env, w, w.inflight[t])
    requires Steady(AnyRun, w, Perform(env, w, a))
    ensures ActsFor(Perform(env, w, a), Perform(env, w, a).inflight[t], AskedBy(init + [a], t))
  {
    assert (init + [a])[..|init|] == init;
    if SlotOf(a) != Some(t) {
      OtherSlotsStay(env, w, a, t);
      ActsForIsKept(w, Perform(env, w, a), w.inflight[t], AskedBy(init, t));
    } else if Begins(a) {
      BeginsForOwner(env, w, a);
    } else {
      SlotIsInFlight(env, w, a);
      OwnSlotActsForOwner(env, w, a, AskedBy(init, t));
    }
  }

  /** Every transaction under way acts for the user whose request began it, on sessions of that user. */
  lemma {:induction false} RunsActForOwners(env: Env, run: seq<Action>)
    requires IsRun(env, run)
    ensures AllActFor(After(env, run), run)
  {
    if run != [] {
      var init, a := run[..|run| - 1], run[|run| - 1];
      var w := After(env, init);
      RunsActForOwners(env, init);
      RunKeepsInv(AnyRun, env, init);
      StepIsSteady(AnyRun, env, w, a);
      assert run == init + [a];
      forall t | t in After(env, run).inflight ensures ActsFor(After(env, run), After(env, run).inflight[t], AskedBy(run, t)) {
        StepActsForOwners(env, w, a, init, t);
      }
    }
  }

  // ---------------------------------------------------------------- who writes

  /** The action removes a session that a purge selected, after it had lapsed. */
  ghost predicate Lapses(w: World, a: Action, sid: Sid) {
    && a.CommitErase? && a.t in w.inflight && w.inflight[a.t].Purging?
    && sid in w.db && w.db[sid].row.expiresAt < w.inflight[a.t].now
  }

  /** The user an action of a run acts for. */
  function ActsAs(init: seq<Action>, a: Action): Option<string> {
    match a
    case CommitCreate(_, user, _, _, _, _, _, _, _) => Some(user)
    case Bundle(user, _, _) => Some(user)
    case _ => if Begins(a) then RequestedBy(a) else AskedBy(init, a.t)
  }

  ghost predicate Written(w: World, w': World, sid: Sid) {
    sid in w.db && (sid !in w'.db || w'.db[sid] != w.db[sid])
  }

  lemma OneIsWritten(env: Env, w: World, a: Action, sid: Sid)
    requires Enabled(env, w, a) && (a.FollowUp? || a.CommitPosted? || a.CommitReply? || a.CommitSwitch?)
    requires Written(w, Perform(env, w, a), sid)
    ensures sid == w.inflight[a.t].sid
  {
  }

  lemma OwnedTxn(w: World, txn: Txn, user: Option<string>)
    requires ActsFor(w, txn, user) && (txn.Owing? || txn.Posted? || txn.Replying? || txn.Switching?) && txn.sid in w.db
    ensures user == Some(w.db[txn.sid].row.user)
  {
  }

  lemma HeldWriteIsOwned(env: Env, w: World, a: Action, sid: Sid, user: Option<string>)
    requires Enabled(env, w, a) && (a.FollowUp? || a.CommitPosted? || a.CommitReply? || a.CommitSwitch?)
    requires ActsFor(w, w.inflight[a.t], user) && Written(w, Perform(env, w, a), sid)
    ensures user == Some(w.db[sid].row.user)
  {
    OneIsWritten(env, w, a, sid);
    OwnedTxn(w, w.inflight[a.t], user);
  }

  lemma ServerWriteIsOwned(env: Env, w: World, a: Action, sid: Sid, user: Option<string>)
    requires Enabled(env, w, a) && a.CommitServer? && w.db.Keys <= w.used
    requires ActsFor(w, w.inflight[a.t], user) && Written(w, Perform(env, w, a), sid)
    ensures user == Some(w.db[sid].row.user)
  {
    var txn := w.inflight[a.t];
    assert sid in w.db.Keys;
    assert Perform(env, w, a).db == w.db[SidOf(txn, a.minted) := Perform(env, w, a).db[SidOf(txn, a.minted)]];
    assert sid == SidOf(txn, a.minted) && txn.target.Existing?;
  }

  lemma ResetIsOwned(env: Env, w: World, a: Action, sid: Sid, user: Option<string>)
    requires Enabled(env, w, a) && a.CommitReset? && w.db.Keys <= w.used && TxnOk(AnyRun, env, w, w.inflight[a.t])
    requires ActsFor(w, w.inflight[a.t], user) && Written(w, Perform(env, w, a), sid)
    ensures user == Some(w.db[sid].row.user)
  {
    assert sid in w.db.Keys;
    assert sid in w.inflight[a.t].deleting.value;
  }

  lemma EraseIsOwned(env: Env, w: World, a: Action, sid: Sid, user: Option<string>)
    requires Enabled(env, w, a) && a.CommitErase? && TxnOk(AnyRun, env, w, w.inflight[a.t])
    requires ActsFor(w, w.inflight[a.t], user) && Written(w, Perform(env, w, a), sid)
    ensures user == Some(w.db[sid].row.user) || Lapses(w, a, sid)
  {
    assert sid in w.inflight[a.t].doomed;
  }

  /** Over every run: a session is changed or removed only by a request of its owner, or by a purge once it
      has lapsed; and a session that appears belongs to the user whose request made it. */
  lemma {:induction false} OnlyOwnersWrite(env: Env, run: seq<Action>, sid: Sid)
    requires IsRun(env, run) && run != []
    ensures var init, a := run[..|run| - 1], run[|run| - 1]; var w, w' := After(env, init), After(env, run);
            && (Written(w, w', sid) ==> ActsAs(init, a) == Some(w.db[sid].row.user) || Lapses(w, a, sid))
            && (sid !in w.db && sid in w'.db ==> ActsAs(init, a) == Some(w'.db[sid].row.user))
  {
    ChangeIsOwned(env, run[..|run| - 1], run[|run| - 1], sid);
    NewIsOwned(env, run[..|run| - 1], run[|run| - 1], sid);
  }

  lemma {:induction false} ChangeIsOwned(env: Env, init: seq<Action>, a: Action, sid: Sid)
    requires IsRun(env, init) && Enabled(env, After(env, init), a)
    ensures var w := After(env, init);
            Written(w, Perform(env, w, a), sid) ==> ActsAs(init, a) == Some(w.db[sid].row.user) || Lapses(w, a, sid)
  {
    var w := After(env, init);
    StoreIsUsed(env, init);
    if Written(w, Perform(env, w, a), sid) {
      OnlyCommitsWrite(env, w, a, sid);
      CommitterActs(env, init, a);
      WriteIsOwned(env, w, a, sid, AskedBy(init, a.t));
    }
  }

  lemma {:induction false} NewIsOwned(env: Env, init: seq<Action>, a: Action, sid: Sid)
    requires IsRun(env, init) && Enabled(env, After(env, init), a)
    ensures var w := After(env, init); var w' := Perform(env, w, a);
            sid !in w.db && sid in w'.db ==> ActsAs(init, a) == Some(w'.db[sid].row.user)
  {
    var w := After(env, init);
    StoreIsUsed(env, init);
    if sid !in w.db && sid in Perform(env, w, a).db {
      OnlyThreeMint(env, w, a, sid);
      if Commits(a) {
        CommitterActs(env, init, a);
        MintIsOwned(env, w, a, sid, AskedBy(init, a.t));
      }
    }
  }

  lemma {:induction false} StoreIsUsed(env: Env, run: seq<Action>)
    requires IsRun(env, run)
    ensures After(env, run).db.Keys <= After(env, run).used
  {
    RunKeepsInv(AnyRun, env, run);
  }

  lemma {:induction false} CommitterActs(env: Env, init: seq<Action>, a: Action)
    requires IsRun(env, init) && Enabled(env, After(env, init), a) && Commits(a)
    ensures var w := After(env, init);
            a.t in w.inflight && ActsFor(w, w.inflight[a.t], AskedBy(init, a.t)) && TxnOk(AnyRun, env, w, w.inflight[a.t])
  {
    CommittersAreInFlight(env, After(env, init), a);
    RunsActForOwners(env, init);
    RunKeepsInv(AnyRun, env, init);
  }

  lemma CommittersAreInFlight(env: Env, w: World, a: Action)
    requires Enabled(env, w, a) && Commits(a)
    ensures a.t in w.inflight
  {
  }

  lemma DeleteIsOwned(env: Env, w: World, a: Action, sid: Sid, user: Option<string>)
    requires Enabled(env, w, a) && (a.CommitReset? || a.CommitErase?) && w.db.Keys <= w.used
    requires TxnOk(AnyRun, env, w, w.inflight[a.t])
    requires ActsFor(w, w.inflight[a.t], user) && Written(w, Perform(env, w, a), sid)
    ensures user == Some(w.db[sid].row.user) || Lapses(w, a, sid)
  {
    if a.CommitReset? { ResetIsOwned(env, w, a, sid, user); } else { EraseIsOwned(env, w, a, sid, user); }
  }

  lemma SaveIsOwned(env: Env, w: World, a: Action, sid: Sid, user: Option<string>)
    requires Enabled(env, w, a) && (a.CommitServer? || a.FollowUp? || a.CommitPosted? || a.CommitReply? || a.CommitSwitch?)
    requires w.db.Keys <= w.used && ActsFor(w, w.inflight[a.t], user) && Written(w, Perform(env, w, a), sid)
    ensures user == Some(w.db[sid].row.user)
  {
    if a.CommitServer? { ServerWriteIsOwned(env, w, a, sid, user); } else { HeldWriteIsOwned(env, w, a, sid, user); }
  }

  /** The actions that commit what a transaction under way has done. */
  predicate Commits(a: Action) {
    || a.CommitReset? || a.CommitErase? || a.CommitServer? || a.FollowUp? || a.CommitPosted? || a.CommitReply?
    || a.CommitSwitch?
  }

  lemma WriteIsOwned(env: Env, w: World, a: Action, sid: Sid, user: Option<string>)
    requires Enabled(env, w, a) && Commits(a) && w.db.Keys <= w.used && TxnOk(AnyRun, env, w, w.inflight[a.t])
    requires ActsFor(w, w.inflight[a.t], user) && Written(w, Perform(env, w, a), sid)
    ensures user == Some(w.db[sid].row.user) || Lapses(w, a, sid)
  {
    if a.CommitReset? || a.CommitErase? {
      DeleteIsOwned(env, w, a, sid, user);
    } else {
      SaveIsOwned(env, w, a, sid, user);
    }
  }

  lemma OnlyCommitsWrite(env: Env, w: World, a: Action, sid: Sid)
    requires w.db.Keys <= w.used && Enabled(env, w, a)
    ensures Written(w, Perform(env, w, a), sid) ==> Commits(a)
  {
    if a.CommitCreate? { assert a.minted !in w.db.Keys; }
  }

  lemma MintIsOwned(env: Env, w: World, a: Action, sid: Sid, user: Option<string>)
    requires Enabled(env, w, a) && (a.CommitServer? || a.CommitReset?) && ActsFor(w, w.inflight[a.t], user)
    requires sid == if a.CommitServer? then SidOf(w.inflight[a.t], a.minted) else a.minted
    requires TxnOk(AnyRun, env, w, w.inflight[a.t]) && w.db.Keys <= w.used
    ensures user == Some(Perform(env, w, a).db[sid].row.user)
  {
    if a.CommitServer? { CommitsForUser(env, w, a, user); }
  }

  lemma OnlyThreeMint(env: Env, w: World, a: Action, sid: Sid)
    requires Enabled(env, w, a) && sid !in w.db && sid in Perform(env, w, a).db
    ensures (a.CommitServer? && sid == SidOf(w.inflight[a.t], a.minted)) || ((a.CommitCreate? || a.CommitReset?) && sid == a.minted)
    ensures a.CommitCreate? ==> Perform(env, w, a).db[sid].row.user == a.user
  {
  }

  // ---------------------------------------------------------------- who is shown what

  /** A context built by this action. */
  ghost predicate Shows(env: Env, w: World, a: Action, e: Exposure)
    requires Enabled(env, w, a)
  {
    if a.AppendAnswer? || a.CommitServer? then
      var txn := w.inflight[a.t];
      && e.step == txn.req.step && e.seen == txn.seen
      && e.sid == match txn.target case Existing(sid, _) => Some(sid) case Inserted => None
    else a.Bundle? && e == Exposure(Some(a.sid), a.step, w.db[a.sid])
  }

  lemma OneContextIsShown(env: Env, w: World, a: Action)
    requires Enabled(env, w, a)
    ensures var w' := Perform(env, w, a);
            if a.AppendAnswer? || a.CommitServer? || a.Bundle?
            then |w'.exposed| == |w.exposed| + 1 && w'.exposed[..|w.exposed|] == w.exposed && Shows(env, w, a, w'.exposed[|w.exposed|])
            else w'.exposed == w.exposed
  {
  }

  lemma ShownIsOwned(env: Env, w: World, a: Action, init: seq<Action>, e: Exposure)
    requires TxnsOk(AnyRun, env, w) && AllActFor(w, init) && Enabled(env, w, a) && Shows(env, w, a, e)
    ensures e.seen.row.step == e.step && ActsAs(init, a) == Some(e.seen.row.user)
  {
    if !a.Bundle? {
      assert TxnOk(AnyRun, env, w, w.inflight[a.t]) && ActsFor(w, w.inflight[a.t], AskedBy(init, a.t));
    }
  }

  /** Over every run: asking the gate, coaching and bundling a prompt each hand a model one context, for the
      step that was asked for and is the session's own; nothing else does, and the session is always one of
      the user who asked. */
  lemma {:induction false} ContextsAreTheOwners(env: Env, run: seq<Action>)
    requires IsRun(env, run) && run != []
    ensures var init, a := run[..|run| - 1], run[|run| - 1]; var w, w' := After(env, init), After(env, run);
            if a.AppendAnswer? || a.CommitServer? || a.Bundle?
            then && |w'.exposed| == |w.exposed| + 1 && w'.exposed[..|w.exposed|] == w.exposed
                 && var e := w'.exposed[|w.exposed|];
                    Shows(env, w, a, e) && e.seen.row.step == e.step && ActsAs(init, a) == Some(e.seen.row.user)
            else w'.exposed == w.exposed
  {
    var init, a := run[..|run| - 1], run[|run| - 1];
    var w := After(env, init);
    RunsActForOwners(env, init);
    RunKeepsInv(AnyRun, env, init);
    OneContextIsShown(env, w, a);
    if a.AppendAnswer? || a.CommitServer? || a.Bundle? {
      ShownIsOwned(env, w, a, init, After(env, run).exposed[|w.exposed|]);
    }
  }

  // ---------------------------------------------------------------- what is owed

  /** After a server turn a reply is owed to the session it was recorded in, at the step that was answered
      and from the model that the row named; and, with a citation, a write of the version two above the one
      that was read. */
  lemma OwedIs(env: Env, w: World, a: Action)
    requires Enabled(env, w, a) && a.CommitServer?
    ensures var txn := w.inflight[a.t]; var owed := Perform(env, w, a).inflight[a.t];
            && owed.Owing? && owed.sid == (match txn.target case Existing(sid, _) => sid case Inserted => a.minted)
            && owed.step == txn.seen.row.step && owed.model == txn.seen.row.model
            && (owed.addressed <==> txn.target.Inserted? || owed.sid == txn.url)
            && owed.pending == if a.cited then Some(txn.seen.row.version + 2) else None
  {
  }

  /** The reply is then one coach message of that step and model, with no turn id, at the end of the
      transcript as it stands when the reply begins. */
  lemma {:induction false} ReplyIs(env: Env, run: seq<Action>, a: Action)
    requires IsRun(env, run) && Enabled(env, After(env, run), a) && a.BeginReply?
    ensures var w := After(env, run); var owed := w.inflight[a.t]; var begun := Perform(env, w, a).inflight[a.t];
            && begun.Replying? && begun.sid == owed.sid && begun.at == |w.db[owed.sid].messages| + 1
            && begun.reply.role == Coach && begun.reply.step == owed.step && begun.reply.content == a.content
            && begun.reply.turnId == None && begun.reply.model == owed.model
  {
    RunKeepsInv(AnyRun, env, run);
    NextSeqIsCount(After(env, run).db[After(env, run).inflight[a.t].sid]);
  }
}
