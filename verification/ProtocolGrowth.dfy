/** How the committed store changes along a run, and that whatever a transaction has read was
    committed at some moment of it. */
module ProtocolGrowth {
  import opened Wrappers
  import opened Steps
  import opened Catalog
  import opened Store
  import opened Quotas
  import opened Turns
  import opened SessionLaws
  import opened Protocol
  import opened ProtocolLaws
  import opened ProtocolCommits
  import opened ProtocolRuns

  /** Sessions present at both moments have only grown; an id once given out and now gone stays gone. */
  ghost predicate Steady(kind: Kind, w: World, w': World) {
    && w.db.Keys <= w.used <= w'.used && w'.db.Keys <= w'.used
    && (forall sid :: sid in w.db && sid in w'.db ==> Evolves(kind, w.db[sid], w'.db[sid]))
    && (forall sid :: sid in w.used && sid !in w.db ==> sid !in w'.db)
  }

  lemma SteadyIsTransitive(kind: Kind, a: World, b: World, c: World)
    requires Steady(kind, a, b) && Steady(kind, b, c)
    ensures Steady(kind, a, c)
  {
    forall sid | sid in a.db && sid in c.db ensures Evolves(kind, a.db[sid], c.db[sid]) {
      assert sid in a.db.Keys;
      assert sid in b.db;
      EvolvesIsTransitive(kind, a.db[sid], b.db[sid], c.db[sid]);
    }
  }

  lemma SameStoreIsSteady(kind: Kind, w: World, w': World)
    requires w.db.Keys <= w.used && w'.db == w.db && w'.used == w.used
    ensures Steady(kind, w, w')
  {
    forall sid | sid in w.db ensures Evolves(kind, w.db[sid], w'.db[sid]) {
      EvolvesIsReflexive(kind, w.db[sid]);
    }
  }

  lemma OneWriteIsSteady(kind: Kind, w: World, w': World, sid: Sid, s: Session)
    requires w.db.Keys <= w.used
    requires w'.db == w.db[sid := s] && w'.used == w.used + {sid}
    requires if sid in w.db then Evolves(kind, w.db[sid], s) else sid !in w.used
    ensures Steady(kind, w, w')
  {
    forall x | x in w.db && x in w'.db ensures Evolves(kind, w.db[x], w'.db[x]) {
      if x != sid { EvolvesIsReflexive(kind, w.db[x]); }
    }
  }

  lemma EraseIsSteady(kind: Kind, w: World, w': World, doomed: set<Sid>)
    requires w.db.Keys <= w.used
    requires w'.db == Without(w.db, doomed) && w'.used == w.used
    ensures Steady(kind, w, w')
  {
    forall x | x in w.db && x in w'.db ensures Evolves(kind, w.db[x], w'.db[x]) {
      EvolvesIsReflexive(kind, w.db[x]);
    }
  }

  lemma HeldIdIsUsed(w: World, sid: Sid)
    requires w.db.Keys <= w.used && sid in w.db
    ensures w.used == w.used + {sid}
  {
    assert sid in w.db.Keys;
  }

  lemma ServerCommitIsSteady(kind: Kind, env: Env, w: World, a: Action)
    requires Inv(kind, env, w) && Enabled(env, w, a) && a.CommitServer? && Befits(kind, w, a)
    ensures Steady(kind, w, Perform(env, w, a))
  {
    var txn := w.inflight[a.t];
    var turn := TurnOf(txn, a.verdict, a.outcome, a.now);
    LandedFits(kind, env, w, a.t, turn);
    LandedRecordsIff(kind, env, w, a.t, turn);
    var s := TargetNow(w, txn).value;
    TurnResult(kind, s, txn.seen, txn.placed.value, turn);
    assert TxnOk(kind, env, w, txn);
    OneWriteIsSteady(kind, w, Perform(env, w, a), SidOf(txn, a.minted), RecordTurn(s, txn.seen.row, txn.placed.value, turn));
  }

  lemma PostedCommitIsSteady(kind: Kind, env: Env, w: World, a: Action)
    requires Inv(kind, env, w) && Enabled(env, w, a) && a.CommitPosted?
    ensures Steady(kind, w, Perform(env, w, a))
  {
    var txn := w.inflight[a.t];
    PostedFits(kind, env, w, a.t);
    TurnResult(kind, w.db[txn.sid], txn.seen, txn.placed.value, txn.turn);
    HeldIdIsUsed(w, txn.sid);
    OneWriteIsSteady(kind, w, Perform(env, w, a), txn.sid, RecordTurn(w.db[txn.sid], txn.seen.row, txn.placed.value, txn.turn));
  }

  lemma RowCommitIsSteady(kind: Kind, env: Env, w: World, a: Action)
    requires Inv(kind, env, w) && Enabled(env, w, a) && (a.CommitReply? || a.CommitSwitch?)
    ensures Steady(kind, w, Perform(env, w, a))
  {
    var txn := w.inflight[a.t];
    HeldIdIsUsed(w, txn.sid);
    if a.CommitReply? {
      ReplyFits(kind, env, w, a.t);
      OneWriteIsSteady(kind, w, Perform(env, w, a), txn.sid, InsertMessage(w.db[txn.sid], txn.at, txn.reply));
    } else {
      SwitchFits(kind, env, w, a.t, a.now);
      OneWriteIsSteady(kind, w, Perform(env, w, a), txn.sid, SetCoachModel(w.db[txn.sid], txn.seen.row.version, txn.entry, a.now));
    }
  }

  lemma CreateIsSteady(kind: Kind, env: Env, w: World, a: Action)
    requires Inv(kind, env, w) && Enabled(env, w, a) && a.CommitCreate?
    ensures Steady(kind, w, Perform(env, w, a))
  {
    var entry := ValidateChoice(a.requested, TierOf(env, a.user), a.hasLocal).value;
    CreateSessionIsSteady(kind, w, Perform(env, w, a), a.minted, a.user, a.problem, a.origin, a.track, a.rubric, entry, a.now);
  }

  lemma CreateSessionIsSteady(kind: Kind, w: World, w': World, minted: Sid, user: string, problem: string, origin: string,
                              track: Track, rubric: string, entry: Entry, now: int)
    requires w.db.Keys <= w.used && minted !in w.used && w'.used == w.used + {minted}
    requires w'.db == CreateSession(w.db, minted, user, problem, origin, track, rubric, entry, now)
    ensures Steady(kind, w, w')
  {
    assert minted !in w.db.Keys;
    OneWriteIsSteady(kind, w, w', minted, NewSession(user, problem, origin, track, rubric, Some(entry.key), TransportOf(entry), now));
  }

  lemma ResetIsSteady(kind: Kind, env: Env, w: World, a: Action)
    requires Inv(kind, env, w) && Enabled(env, w, a) && a.CommitReset?
    ensures Steady(kind, w, Perform(env, w, a))
  {
    var mid := w.(db := Without(w.db, w.inflight[a.t].deleting.value));
    EraseIsSteady(kind, w, mid, w.inflight[a.t].deleting.value);
    assert a.minted !in mid.db.Keys;
    OneWriteIsSteady(kind, mid, Perform(env, w, a), a.minted, Perform(env, w, a).db[a.minted]);
    SteadyIsTransitive(kind, w, mid, Perform(env, w, a));
  }

  lemma SessionCommitIsSteady(kind: Kind, env: Env, w: World, a: Action)
    requires Inv(kind, env, w) && Enabled(env, w, a) && Befits(kind, w, a) && (a.CommitServer? || a.CommitPosted? || a.CommitReply? || a.CommitSwitch?)
    ensures Steady(kind, w, Perform(env, w, a))
  {
    if a.CommitServer? {
      ServerCommitIsSteady(kind, env, w, a);
    } else if a.CommitPosted? {
      PostedCommitIsSteady(kind, env, w, a);
    } else {
      RowCommitIsSteady(kind, env, w, a);
    }
  }

  lemma FollowUpIsSteady(kind: Kind, env: Env, w: World, a: Action)
    requires Inv(kind, env, w) && Enabled(env, w, a) && a.FollowUp? && Befits(kind, w, a)
    ensures Steady(kind, w, Perform(env, w, a))
  {
    var txn := w.inflight[a.t];
    FollowUpFits(kind, env, w, a.t);
    HeldIdIsUsed(w, txn.sid);
    OneWriteIsSteady(kind, w, Perform(env, w, a), txn.sid, Followed(w.db[txn.sid], txn.pending.value));
  }

  lemma StepIsSteady(kind: Kind, env: Env, w: World, a: Action)
    requires Inv(kind, env, w) && Enabled(env, w, a) && Befits(kind, w, a)
    ensures Steady(kind, w, Perform(env, w, a))
  {
    if a.CommitServer? || a.CommitPosted? || a.CommitReply? || a.CommitSwitch? {
      SessionCommitIsSteady(kind, env, w, a);
    } else if a.FollowUp? {
      FollowUpIsSteady(kind, env, w, a);
    } else if a.CommitCreate? {
      CreateIsSteady(kind, env, w, a);
    } else if a.CommitReset? {
      ResetIsSteady(kind, env, w, a);
    } else if a.CommitErase? {
      EraseIsSteady(kind, w, Perform(env, w, a), w.inflight[a.t].doomed);
    } else {
      SameStoreIsSteady(kind, w, Perform(env, w, a));
    }
  }

  lemma {:induction false} PrefixIsRun(env: Env, run: seq<Action>, n: nat)
    requires IsRun(env, run) && n <= |run|
    ensures IsRun(env, run[..n])
  {
    if n < |run| {
      PrefixIsRun(env, run[..|run| - 1], n);
      assert run[..|run| - 1][..n] == run[..n];
    } else {
      assert run[..n] == run;
    }
  }

  /** The world after the first n steps of a run. */
  ghost function At(env: Env, run: seq<Action>, n: nat): World
    requires IsRun(env, run) && n <= |run|
  {
    PrefixIsRun(env, run, n);
    After(env, run[..n])
  }

  /** Between any two moments of any run at which a session exists, its audit log and its messages have
      only grown and, once completed, all but its version is frozen; a deleted id never comes back. If no
      reflected row lowers a version there is no lost update and no ABA either: the version has only
      grown, and an equal version means an equal row, gate table and log. */
  lemma {:induction false} RunsAreSteady(kind: Kind, env: Env, run: seq<Action>, n: nat)
    requires IsRun(env, run) && n <= |run| && IsOfKind(kind, env, run)
    ensures Steady(kind, At(env, run, n), After(env, run))
  {
    if n == |run| {
      assert run[..n] == run;
      RunKeepsInv(kind, env, run);
      SameStoreIsSteady(kind, After(env, run), After(env, run));
    } else {
      var before := run[..|run| - 1];
      assert before[..n] == run[..n];
      RunsAreSteady(kind, env, before, n);
      RunKeepsInv(kind, env, before);
      StepIsSteady(kind, env, After(env, before), run[|run| - 1]);
      SteadyIsTransitive(kind, At(env, run, n), After(env, before), After(env, run));
    }
  }

  // ---------------------------------------------------------------- versions

  ghost predicate VersionsRise(w: World, w': World) {
    forall sid :: sid in w.db && sid in w'.db ==> w.db[sid].row.version <= w'.db[sid].row.version
  }

  /** In every run only the flush of a reflected row can make a version fall, and it does so exactly when it
      lowers one. */
  lemma VersionsRiseIff(env: Env, w: World, a: Action)
    requires Enabled(env, w, a) && w.db.Keys <= w.used
    ensures VersionsRise(w, Perform(env, w, a)) <==> LowersNothing(w, a)
  {
    if a.FollowUp? {
      var sid := w.inflight[a.t].sid;
      assert Perform(env, w, a).db[sid].row.version == w.inflight[a.t].pending.value;
    } else if a.CommitServer? {
      ServerTurnRaises(env, w, a);
    } else if a.CommitCreate? || a.CommitReset? {
      assert a.minted !in w.db.Keys;
    }
  }

  lemma ServerTurnRaises(env: Env, w: World, a: Action)
    requires Enabled(env, w, a) && w.db.Keys <= w.used && a.CommitServer?
    ensures VersionsRise(w, Perform(env, w, a))
  {
    assert a.minted !in w.db.Keys;
    TargetIsFree(w, w.inflight[a.t]);
  }

  /** At no step of the run does a version fall. */
  ghost predicate VersionsNeverFall(env: Env, run: seq<Action>)
    requires IsRun(env, run)
  {
    run == [] || (VersionsNeverFall(env, run[..|run| - 1]) && VersionsRise(After(env, run[..|run| - 1]), After(env, run)))
  }

  lemma {:induction false} VersionsNeverFallIff(env: Env, run: seq<Action>)
    requires IsRun(env, run)
    ensures VersionsNeverFall(env, run) <==> NothingLowered(env, run)
  {
    if run != [] {
      VersionsNeverFallIff(env, run[..|run| - 1]);
      RunKeepsInv(AnyRun, env, run[..|run| - 1]);
      VersionsRiseIff(env, After(env, run[..|run| - 1]), run[|run| - 1]);
    }
  }

  // ---------------------------------------------------------------- where reads come from

  /** `seen` was the committed session under `sid` at some moment of the run. */
  ghost predicate WasCommitted(env: Env, run: seq<Action>, sid: Sid, seen: Session)
    requires IsRun(env, run)
  {
    exists n: nat :: n <= |run| && InStore(At(env, run, n), sid, seen)
  }

  ghost predicate InStore(w: World, sid: Sid, s: Session) {
    sid in w.db && w.db[sid] == s
  }

  ghost predicate ReadFromStore(env: Env, run: seq<Action>, txn: Txn)
    requires IsRun(env, run)
  {
    match txn
    case Addressed(_, url, seen) => WasCommitted(env, run, url, seen)
    case Landed(_, _, Existing(sid, _), seen, _) => WasCommitted(env, run, sid, seen)
    case Posted(sid, _, seen, _) => WasCommitted(env, run, sid, seen)
    case _ => true
  }

  ghost predicate ReadsAreCommitted(env: Env, run: seq<Action>)
    requires IsRun(env, run)
  {
    && (forall t :: t in After(env, run).inflight ==> ReadFromStore(env, run, After(env, run).inflight[t]))
    && (forall i :: 0 <= i < |After(env, run).exposed| ==> ShownFromStore(env, run, After(env, run).exposed[i]))
  }

  ghost predicate ShownFromStore(env: Env, run: seq<Action>, e: Exposure)
    requires IsRun(env, run)
  {
    e.sid.Some? ==> WasCommitted(env, run, e.sid.value, e.seen)
  }

  lemma CommittedStays(env: Env, run: seq<Action>, sid: Sid, seen: Session)
    requires IsRun(env, run) && run != [] && WasCommitted(env, run[..|run| - 1], sid, seen)
    ensures WasCommitted(env, run, sid, seen)
  {
    var before := run[..|run| - 1];
    var n: nat :| n <= |before| && InStore(At(env, before, n), sid, seen);
    assert before[..n] == run[..n];
    assert InStore(At(env, run, n), sid, seen);
  }

  lemma PresentIsCommitted(env: Env, run: seq<Action>, sid: Sid)
    requires IsRun(env, run) && sid in After(env, run).db
    ensures WasCommitted(env, run, sid, After(env, run).db[sid])
  {
    assert run[..|run|] == run;
    assert InStore(At(env, run, |run|), sid, After(env, run).db[sid]);
  }

  lemma ReadStays(env: Env, run: seq<Action>, txn: Txn)
    requires IsRun(env, run) && run != [] && ReadFromStore(env, run[..|run| - 1], txn)
    ensures ReadFromStore(env, run, txn)
  {
    match txn
    case Addressed(_, url, seen) => CommittedStays(env, run, url, seen);
    case Landed(_, _, Existing(sid, _), seen, _) => CommittedStays(env, run, sid, seen);
    case Posted(sid, _, seen, _) => CommittedStays(env, run, sid, seen);
    case _ =>
  }

  /** What the step's own transaction now holds it held before, or reads from the store. */
  lemma NewReadIsCommitted(env: Env, before: seq<Action>, a: Action, t: Tid)
    requires IsRun(env, before) && ReadsAreCommitted(env, before) && Enabled(env, After(env, before), a)
    requires t in Perform(env, After(env, before), a).inflight
    ensures ReadFromStore(env, before, Perform(env, After(env, before), a).inflight[t])
  {
    var w := After(env, before);
    if t in w.inflight && Perform(env, w, a).inflight[t] == w.inflight[t] {
    } else if a.ReadAddressed? {
      PresentIsCommitted(env, before, a.url);
    } else if a.LandTurn? {
      assert ReadFromStore(env, before, w.inflight[t]);
      if LandedTarget(w, w.inflight[t]).Existing? { PresentIsCommitted(env, before, LandedTarget(w, w.inflight[t]).sid); }
    } else if a.LockPosted? {
      PresentIsCommitted(env, before, a.sid);
    } else if a.AppendAnswer? || a.AppendPosted? {
      assert ReadFromStore(env, before, w.inflight[t]);
    }
  }

  lemma NewShowIsCommitted(env: Env, before: seq<Action>, a: Action, i: nat)
    requires IsRun(env, before) && ReadsAreCommitted(env, before) && Enabled(env, After(env, before), a)
    requires i < |Perform(env, After(env, before), a).exposed|
    ensures ShownFromStore(env, before, Perform(env, After(env, before), a).exposed[i])
  {
    var w := After(env, before);
    if i < |w.exposed| {
      assert ShownFromStore(env, before, w.exposed[i]);
    } else if a.Bundle? {
      PresentIsCommitted(env, before, a.sid);
    } else {
      assert ReadFromStore(env, before, w.inflight[a.t]);
    }
  }

  lemma {:induction false} RunsReadWhatWasCommitted(env: Env, run: seq<Action>)
    requires IsRun(env, run)
    ensures ReadsAreCommitted(env, run)
  {
    if run != [] {
      var before, a := run[..|run| - 1], run[|run| - 1];
      RunsReadWhatWasCommitted(env, before);
      forall t | t in After(env, run).inflight ensures ReadFromStore(env, run, After(env, run).inflight[t]) {
        NewReadIsCommitted(env, before, a, t);
        ReadStays(env, run, After(env, run).inflight[t]);
      }
      forall i | 0 <= i < |After(env, run).exposed| ensures ShownFromStore(env, run, After(env, run).exposed[i]) {
        NewShowIsCommitted(env, before, a, i);
        if After(env, run).exposed[i].sid.Some? {
          CommittedStays(env, run, After(env, run).exposed[i].sid.value, After(env, run).exposed[i].seen);
        }
      }
    }
  }
}
