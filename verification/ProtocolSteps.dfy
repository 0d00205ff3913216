/** Every enabled step keeps the invariant, kind by kind; hence every run does. */
module ProtocolSteps {
  import opened Wrappers
  import opened Steps
  import opened Fsm
  import opened Store
  import opened Quotas
  import opened Turns
  import opened SessionLaws
  import opened Protocol
  import opened ProtocolLaws

  // ---------------------------------------------------------------- steps that write nothing

  ghost predicate OwesNoMore(w: World, w': World) {
    forall sid :: Debts(w', sid) <= Debts(w, sid)
  }

  ghost predicate OthersSame(w: World, w': World, t: Option<Tid>) {
    && (forall u :: u in w.inflight && Some(u) != t ==> u in w'.inflight && w'.inflight[u] == w.inflight[u])
    && (forall u :: u in w'.inflight && Some(u) != t ==> u in w.inflight)
  }

  ghost predicate Quiet(w: World, w': World, t: Option<Tid>) {
    && w'.db == w.db && w'.used == w.used
    && OthersSame(w, w', t)
    && OwesNoMore(w, w')
  }

  lemma QuietIsFramed(kind: Kind, w: World, w': World, t: Option<Tid>)
    requires Quiet(w, w', t)
    ensures Frame(kind, w, w', t)
  {
    forall sid | sid in w.db && sid in w'.db ensures Evolves(kind, w.db[sid], w'.db[sid]) {
      EvolvesIsReflexive(kind, w.db[sid]);
    }
  }

  lemma QuietKeepsInv(kind: Kind, env: Env, w: World, w': World, t: Option<Tid>)
    requires Inv(kind, env, w) && Quiet(w, w', t)
    requires t.Some? && t.value in w'.inflight ==> TxnOk(kind, env, w', w'.inflight[t.value])
    requires t.Some? && t.value in w'.inflight ==>
               forall sid :: Holds(w'.inflight[t.value], sid) ==> Free(w, t.value, sid)
    requires Shows(kind, w, w')
    ensures Inv(kind, env, w')
  {
    QuietIsFramed(kind, w, w', t);
    FramedStepKeepsTxns(kind, env, w, w', t);
    ExposuresAreKept(kind, w, w', t);
    QuietKeepsCounts(w, w');
  }

  lemma QuietKeepsCounts(w: World, w': World)
    requires w'.db == w.db && OwesNoMore(w, w') && RepliesCounted(w)
    ensures RepliesCounted(w')
  {
    forall sid | sid in w'.db ensures |CoachSeqs(w'.db[sid])| + Debts(w', sid) <= |UserSeqs(w'.db[sid])| {
      assert Debts(w', sid) <= Debts(w, sid);
    }
  }

  /** Debts move only with the transaction that takes the step. */
  lemma DebtsAfter(w: World, w': World, t: Tid, sid: Sid)
    requires OthersSame(w, w', Some(t))
    ensures Debts(w', sid) == Debts(w, sid)
              - (if t in w.inflight && OwesReply(w.inflight[t], sid) then 1 else 0)
              + (if t in w'.inflight && OwesReply(w'.inflight[t], sid) then 1 else 0)
  {
    var before, after := Pending(w.inflight, sid), Pending(w'.inflight, sid);
    PendingOfOthers(w, w', t, sid);
    CountWithout(before, t);
    CountWithout(after, t);
  }

  lemma PendingOfOthers(w: World, w': World, t: Tid, sid: Sid)
    requires OthersSame(w, w', Some(t))
    ensures Pending(w.inflight, sid) - {t} == Pending(w'.inflight, sid) - {t}
  {
  }

  lemma CountWithout<T>(s: set<T>, x: T)
    ensures |s| == |s - {x}| + if x in s then 1 else 0
  {
    if x !in s { assert s - {x} == s; }
  }

  lemma OwesNoMoreAfter(w: World, w': World, t: Tid)
    requires OthersSame(w, w', Some(t))
    requires t in w'.inflight ==> forall sid :: OwesReply(w'.inflight[t], sid) ==> t in w.inflight && OwesReply(w.inflight[t], sid)
    ensures OwesNoMore(w, w')
  {
    forall sid ensures Debts(w', sid) <= Debts(w, sid) {
      DebtsAfter(w, w', t, sid);
    }
  }

  /** What is read now is in the past from now on. */
  lemma PresentIsPast(kind: Kind, w: World, sid: Sid)
    requires StoreOk(kind, w) && sid in w.db
    ensures Past(kind, w, sid, w.db[sid]) && Held(w, sid, w.db[sid])
  {
    EvolvesIsReflexive(kind, w.db[sid]);
  }

  ghost predicate LocksOnlyFree(w: World, t: Tid, txn: Txn) {
    forall u | u in w.inflight && u != t :: NothingShared(txn, w.inflight[u])
  }

  ghost predicate NothingShared(a: Txn, b: Txn) {
    forall sid :: !(Holds(a, sid) && Holds(b, sid))
  }

  /** The transaction owes no reply that it did not owe before. */
  ghost predicate OwesAlready(w: World, t: Tid, txn: Txn) {
    forall sid :: OwesReply(txn, sid) ==> t in w.inflight && OwesReply(w.inflight[t], sid)
  }

  lemma OwesNothing(w: World, t: Tid, txn: Txn)
    requires !txn.Owing? && !txn.Replying?
    ensures OwesAlready(w, t, txn)
  {
  }

  /** A transaction begins or moves on without writing. */
  lemma PutKeepsInv(kind: Kind, env: Env, w: World, w': World, t: Tid, txn: Txn, shown: seq<Exposure>)
    requires Inv(kind, env, w) && TxnOk(kind, env, w, txn) && LocksOnlyFree(w, t, txn) && OwesAlready(w, t, txn)
    requires forall i :: 0 <= i < |shown| ==> ExposureOk(kind, w, shown[i])
    requires w'.db == w.db && w'.used == w.used && w'.inflight == w.inflight[t := txn] && w'.exposed == w.exposed + shown
    ensures Inv(kind, env, w')
  {
    SameStoreSameTxn(kind, env, w, w', txn);
    forall sid | Holds(txn, sid) ensures Free(w, t, sid) {
      forall u | u in w.inflight && u != t ensures !Holds(w.inflight[u], sid) {
        assert NothingShared(txn, w.inflight[u]);
      }
    }
    forall i | |w.exposed| <= i < |w'.exposed| ensures ExposureOk(kind, w', w'.exposed[i]) {
      assert ExposureOk(kind, w, shown[i - |w.exposed|]);
      SameStoreSameExposure(kind, w, w', w'.exposed[i]);
    }
    OwesNoMoreAfter(w, w', t);
    QuietKeepsInv(kind, env, w, w', Some(t));
  }

  lemma SameStoreSameTxn(kind: Kind, env: Env, w: World, w': World, txn: Txn)
    requires w'.db == w.db && w'.used == w.used && TxnOk(kind, env, w, txn)
    ensures TxnOk(kind, env, w', txn)
  {
  }

  lemma SameStoreSameExposure(kind: Kind, w: World, w': World, e: Exposure)
    requires w'.db == w.db && w'.used == w.used && ExposureOk(kind, w, e)
    ensures ExposureOk(kind, w', e)
  {
  }

  lemma AbandonKeepsInv(kind: Kind, env: Env, w: World, t: Tid)
    requires Inv(kind, env, w) && t in w.inflight
    ensures Inv(kind, env, Drop(w, t))
  {
    OwesNoMoreAfter(w, Drop(w, t), t);
    QuietKeepsInv(kind, env, w, Drop(w, t), Some(t));
  }

  lemma ShowKeepsInv(kind: Kind, env: Env, w: World, e: Exposure)
    requires Inv(kind, env, w) && ExposureOk(kind, w, e)
    ensures Inv(kind, env, w.(exposed := w.exposed + [e]))
  {
    var w' := w.(exposed := w.exposed + [e]);
    SameStoreSameExposure(kind, w, w', e);
    ShowsOne(kind, w, w', e);
    QuietKeepsInv(kind, env, w, w', None);
  }

  lemma PresentIsExposable(kind: Kind, w: World, sid: Sid)
    requires StoreOk(kind, w) && sid in w.db && w.db[sid].row.status == Active
    ensures ExposureOk(kind, w, Exposure(Some(sid), w.db[sid].row.step, w.db[sid]))
  {
    PresentIsPast(kind, w, sid);
  }

  // ---------------------------------------------------------------- each reading step's transaction is in order

  lemma LandedIsOk(kind: Kind, env: Env, w: World, t: Tid, now: int)
    requires Inv(kind, env, w) && Enabled(env, w, LandTurn(t, now))
    ensures var txn := w.inflight[t];
            TxnOk(kind, env, w, Landed(txn.req, txn.url, LandedTarget(w, txn), LandedSession(w, txn, now), None))
  {
    var txn := w.inflight[t];
    assert TxnOk(kind, env, w, txn);
    var target := LandedTarget(w, txn);
    if target.Existing? {
      PresentIsPast(kind, w, target.sid);
    } else {
      assert IsFresh(LandedSession(w, txn, now), txn.req);
    }
  }

  lemma FreshIsOk(kind: Kind, s: Session, req: TurnReq)
    requires IsFresh(s, req)
    ensures SessionOk(kind, s) && s.messages == map[] && StepIndex(s.row.step) == 0
  {
    var now :| s == FreshFor(req, now);
    NewSessionOk(req.user, req.problem, req.origin, TrackOf(req.step), req.rubric, None, false, now);
    LadderPosition(TrackOf(req.step), 0);
  }

  lemma TargetIsOk(kind: Kind, w: World, txn: Txn)
    requires StoreOk(kind, w) && txn.Landed? && TargetNow(w, txn).Some?
    requires txn.target.Inserted? ==> IsFresh(txn.seen, txn.req)
    ensures SessionOk(kind, TargetNow(w, txn).value)
    ensures NextSeq(TargetNow(w, txn).value) == |TargetNow(w, txn).value.messages| + 1
    ensures txn.target.Inserted? ==> NextSeq(TargetNow(w, txn).value) == 1 && StepIndex(txn.seen.row.step) == 0
  {
    if txn.target.Inserted? { FreshIsOk(kind, txn.seen, txn.req); }
    NextSeqIsCount(TargetNow(w, txn).value);
  }

  lemma AnsweredIsOk(kind: Kind, env: Env, w: World, t: Tid)
    requires Inv(kind, env, w) && t in w.inflight && w.inflight[t].Landed? && TargetNow(w, w.inflight[t]).Some?
    ensures var txn := w.inflight[t];
            && TxnOk(kind, env, w, Appended(txn, NextSeq(TargetNow(w, txn).value)))
            && ExposureOk(kind, w, ExposedTo(txn))
  {
    var txn := w.inflight[t];
    assert TxnOk(kind, env, w, txn);
    TargetIsOk(kind, w, txn);
    if txn.target.Inserted? { FreshIsOk(kind, txn.seen, txn.req); }
  }

  lemma PostedIsOk(kind: Kind, env: Env, w: World, t: Tid)
    requires Inv(kind, env, w) && t in w.inflight && w.inflight[t].Posted? && w.inflight[t].sid in w.db
    ensures var txn := w.inflight[t]; TxnOk(kind, env, w, Posted(txn.sid, txn.turn, txn.seen, Some(NextSeq(w.db[txn.sid]))))
  {
    assert TxnOk(kind, env, w, w.inflight[t]);
    NextSeqIsCount(w.db[w.inflight[t].sid]);
  }

  lemma ReplyingIsOk(kind: Kind, env: Env, w: World, t: Tid, content: string)
    requires Inv(kind, env, w) && t in w.inflight && w.inflight[t].Owing? && w.inflight[t].sid in w.db
    ensures var txn := w.inflight[t];
            TxnOk(kind, env, w, Replying(txn.sid, Message(Coach, txn.step, content, None, txn.model), NextSeq(w.db[txn.sid])))
  {
    assert TxnOk(kind, env, w, w.inflight[t]);
    NextSeqIsCount(w.db[w.inflight[t].sid]);
  }

  // ---------------------------------------------------------------- steps that write one session

  lemma HeldIsFree(w: World, t: Tid, sid: Sid)
    requires Exclusive(w) && t in w.inflight && Holds(w.inflight[t], sid)
    ensures Free(w, t, sid)
  {
  }

  /** The store after the step: one session given another row by a transaction that no other keeps from
      it, or given a message more, or one inserted under an id never used. */
  ghost predicate Writes(kind: Kind, w: World, w': World, t: Option<Tid>, sid: Sid, s: Session) {
    && w'.db == w.db[sid := s]
    && w'.used == w.used + {sid}
    && OthersSame(w, w', t)
    && (if sid in w.db
        then Evolves(kind, w.db[sid], s) && (SameState(w.db[sid], s) || (t.Some? && Free(w, t.value, sid)))
        else sid !in w.used && (s.row.status == Active ==> !HasActive(w.db, s.row.user, s.row.problem)))
  }

  lemma WriteIsFramed(kind: Kind, w: World, w': World, t: Option<Tid>, sid: Sid, s: Session)
    requires Writes(kind, w, w', t, sid, s) && Exclusive(w)
    ensures Frame(kind, w, w', t)
  {
    forall x | x in w.db && x in w'.db ensures Evolves(kind, w.db[x], w'.db[x]) {
      if x != sid { EvolvesIsReflexive(kind, w.db[x]); }
    }
  }

  lemma WriteKeepsStore(kind: Kind, w: World, w': World, t: Option<Tid>, sid: Sid, s: Session)
    requires Writes(kind, w, w', t, sid, s) && StoreOk(kind, w) && SessionOk(kind, s)
    ensures StoreOk(kind, w')
  {
    if sid in w.db {
      OnlyActiveEvolves(w.db[sid], s);
      RewriteKeepsOneActive(w.db, sid, s);
    } else {
      InsertKeepsOneActive(w.db, sid, s);
    }
    WriteKeepsSessions(kind, w.db, sid, s);
  }

  lemma WriteKeepsSessions(kind: Kind, db: Db, sid: Sid, s: Session)
    requires SessionsOk(kind, db) && SessionOk(kind, s)
    ensures SessionsOk(kind, db[sid := s])
  {
  }

  lemma OnlyActiveEvolves(a: Session, b: Session)
    requires Grows(a, b)
    ensures b.row.status == Active ==> a.row.status == Active
    ensures b.row.user == a.row.user && b.row.problem == a.row.problem
  {
    if a.row.status == Completed { StatusIsKept(a, b); }
  }

  lemma RewriteKeepsOneActive(db: Db, sid: Sid, s: Session)
    requires OneActive(db) && sid in db && s.row.user == db[sid].row.user && s.row.problem == db[sid].row.problem
    requires s.row.status == Active ==> db[sid].row.status == Active
    ensures OneActive(db[sid := s])
  {
    var db' := db[sid := s];
    forall a, b | a in db' && b in db' && BothActive(db'[a].row, db'[b].row) ensures a == b {
      assert BothActive(db[a].row, db[b].row);
    }
  }

  lemma InsertKeepsOneActive(db: Db, sid: Sid, s: Session)
    requires OneActive(db) && sid !in db && (s.row.status == Active ==> !HasActive(db, s.row.user, s.row.problem))
    ensures OneActive(db[sid := s])
  {
    var db' := db[sid := s];
    assert s.row.status == Active ==> forall x :: x in db ==> !IsActiveFor(db[x].row, s.row.user, s.row.problem);
  }

  ghost predicate OwesNoMoreBut(w: World, w': World, sid: Sid) {
    forall x :: x != sid ==> Debts(w', x) <= Debts(w, x)
  }

  lemma WriteKeepsCounts(kind: Kind, w: World, w': World, t: Option<Tid>, sid: Sid, s: Session)
    requires Writes(kind, w, w', t, sid, s) && RepliesCounted(w)
    requires |CoachSeqs(s)| + Debts(w', sid) <= |UserSeqs(s)|
    requires OwesNoMoreBut(w, w', sid)
    ensures RepliesCounted(w')
  {
    forall x | x in w'.db ensures |CoachSeqs(w'.db[x])| + Debts(w', x) <= |UserSeqs(w'.db[x])| {
      if x != sid { assert Debts(w', x) <= Debts(w, x); }
    }
  }

  ghost predicate CappedSession(env: Env, s: Session) {
    s.row.user in env.capped && AllClient(s.calls) ==> |s.messages| <= env.cap + 1
  }

  lemma WriteKeepsCap(kind: Kind, env: Env, w: World, w': World, t: Option<Tid>, sid: Sid, s: Session)
    requires Writes(kind, w, w', t, sid, s) && Capped(env, w) && CappedSession(env, s)
    ensures Capped(env, w')
  {
  }

  lemma WriteKeepsInv(kind: Kind, env: Env, w: World, w': World, t: Option<Tid>, sid: Sid, s: Session)
    requires Inv(kind, env, w) && Writes(kind, w, w', t, sid, s) && SessionOk(kind, s) && CappedSession(env, s)
    requires |CoachSeqs(s)| + Debts(w', sid) <= |UserSeqs(s)|
    requires OwesNoMoreBut(w, w', sid)
    requires t.Some? && t.value in w'.inflight ==> TxnOk(kind, env, w', w'.inflight[t.value])
    requires t.Some? && t.value in w'.inflight ==> forall x :: !Holds(w'.inflight[t.value], x)
    requires Shows(kind, w, w')
    ensures Inv(kind, env, w')
  {
    WriteIsFramed(kind, w, w', t, sid, s);
    WriteKeepsStore(kind, w, w', t, sid, s);
    WriteKeepsCounts(kind, w, w', t, sid, s);
    WriteKeepsCap(kind, env, w, w', t, sid, s);
    FramedStepKeepsTxns(kind, env, w, w', t);
    ExposuresAreKept(kind, w, w', t);
  }
}
