/** What every reachable world satisfies, and why each step keeps it. Everything is stated for three kinds
    of run at once: what holds in every run; with the exact laws, in the runs in which nothing is lost;
    and with the order of versions, in the runs in which no reflected row lowers one. */
module ProtocolLaws {
  import opened Wrappers
  import opened Builtins
  import opened Steps
  import opened Fsm
  import opened Catalog
  import opened Store
  import opened Quotas
  import opened Turns
  import opened SessionLaws
  import opened Protocol

  // ---------------------------------------------------------------- the invariant

  ghost predicate StoreOk(kind: Kind, w: World) {
    && w.db.Keys <= w.used
    && OneActive(w.db)
    && SessionsOk(kind, w.db)
  }

  ghost predicate SessionsOk(kind: Kind, db: Db) {
    forall sid :: sid in db ==> SessionOk(kind, db[sid])
  }

  /** `seen` was once the committed session under `sid`. */
  ghost predicate Past(kind: Kind, w: World, sid: Sid, seen: Session) {
    && SessionOk(kind, seen)
    && sid in w.used
    && (sid in w.db ==> Evolves(kind, seen, w.db[sid]))
  }

  /** A sequence number taken from this session's transcript, now or earlier. */
  ghost predicate Taken(s: Session, at: nat) {
    1 <= at <= |s.messages| + 1
  }

  /** The session under a locked id is still there, with its row as locked. */
  ghost predicate Locked(w: World, sid: Sid, row: Row) {
    sid in w.db && w.db[sid].row == row
  }

  /** And, for what was read after the lock, all but its transcript as read. */
  ghost predicate Held(w: World, sid: Sid, seen: Session) {
    sid in w.db && SameState(seen, w.db[sid])
  }

  ghost predicate Unserved(w: World, sid: Sid) {
    sid in w.used && (sid in w.db ==> !AllClient(w.db[sid].calls))
  }

  ghost predicate IsFresh(s: Session, req: TurnReq) {
    exists now :: s == FreshFor(req, now)
  }

  /** The version that a reflected row will write was ahead of the row's when its turn committed. */
  ghost predicate Ahead(w: World, sid: Sid, pending: Option<nat>) {
    pending.Some? && sid in w.db ==> pending.value <= w.db[sid].row.version + 1
  }

  ghost predicate TxnOk(kind: Kind, env: Env, w: World, txn: Txn) {
    match txn
    case Addressed(req, url, seen) =>
      && Past(kind, w, url, seen) && !seen.row.byok
    case Landed(req, url, target, seen, placed) =>
      && seen.row.status == Active && seen.row.step == req.step
      && (match target
          case Existing(sid, locked) =>
            && Past(kind, w, sid, seen) && Locked(w, sid, locked) && IsActiveFor(locked, req.user, req.problem)
            && (placed.Some? ==> Taken(w.db[sid], placed.value))
            && (sid == url ==> !seen.row.byok)
            && (sid != url ==> seen.row == locked)
          case Inserted => IsFresh(seen, req) && (placed.Some? ==> placed.value == 1))
    case Posted(sid, turn, seen, placed) =>
      && Past(kind, w, sid, seen) && Held(w, sid, seen)
      && seen.row.status == Active && seen.row.byok && UnderQuota(env, seen.row.user, seen)
      && turn.judge == Client && turn.reply.Some?
      && (placed.Some? ==> Taken(w.db[sid], placed.value))
    case Owing(sid, _, model, addressed, pending) =>
      Unserved(w, sid) && (addressed ==> !NamesCloudModel(model)) && (kind == OrderedRun ==> Ahead(w, sid, pending))
    case Replying(sid, reply, at) =>
      && Unserved(w, sid) && reply.role == Coach && reply.turnId == None
      && (sid in w.db ==> Taken(w.db[sid], at))
    case Switching(sid, seen, entry) =>
      && Past(kind, w, sid, seen) && Held(w, sid, seen) && seen.row.status == Active && ByKey(Some(entry.key)) == Some(entry)
    case Resetting(sid, seen, deleting) =>
      && Past(kind, w, sid, seen) && Locked(w, sid, seen.row)
      && (deleting.Some? ==> sid in deleting.value && deleting.value <= RowsFor(w.db, seen.row.user, seen.row.problem))
    case Clearing(user, doomed) => doomed <= RowsOf(w.db, user)
    case Purging(now, doomed) => doomed <= ExpiredRows(w.db, now)
  }

  ghost predicate TxnsOk(kind: Kind, env: Env, w: World) {
    forall t :: t in w.inflight ==> TxnOk(kind, env, w, w.inflight[t])
  }

  ghost predicate Exclusive(w: World) {
    forall t, u, sid {:trigger Holds(w.inflight[t], sid), Holds(w.inflight[u], sid)} ::
      t in w.inflight && u in w.inflight && Holds(w.inflight[t], sid) && Holds(w.inflight[u], sid) ==> t == u
  }

  function CoachSeqs(s: Session): set<nat> {
    SeqsOf(s.messages, Coach)
  }

  function UserSeqs(s: Session): set<nat> {
    SeqsOf(s.messages, User)
  }

  predicate OwesReply(txn: Txn, sid: Sid) {
    (txn.Owing? || txn.Replying?) && txn.sid == sid
  }

  function Pending(inflight: map<Tid, Txn>, sid: Sid): set<Tid> {
    set t | t in inflight && OwesReply(inflight[t], sid)
  }

  /** How many replies to this session's turns are still streaming. */
  function Debts(w: World, sid: Sid): nat {
    |Pending(w.inflight, sid)|
  }

  /** Every coach message, written or still streaming, answers a user message of its own. */
  ghost predicate RepliesCounted(w: World) {
    forall sid :: sid in w.db ==> |CoachSeqs(w.db[sid])| + Debts(w, sid) <= |UserSeqs(w.db[sid])|
  }

  ghost predicate Capped(env: Env, w: World) {
    forall sid :: sid in w.db && w.db[sid].row.user in env.capped && AllClient(w.db[sid].calls)
      ==> |w.db[sid].messages| <= env.cap + 1
  }

  ghost predicate ExposureOk(kind: Kind, w: World, e: Exposure) {
    && SessionOk(kind, e.seen)
    && e.seen.row.status == Active && e.seen.row.step == e.step
    && (e.sid.Some? ==> Past(kind, w, e.sid.value, e.seen))
    && (e.sid.None? ==> StepIndex(e.step) == 0)
  }

  ghost predicate ExposuresOk(kind: Kind, w: World) {
    forall i :: 0 <= i < |w.exposed| ==> ExposureOk(kind, w, w.exposed[i])
  }

  /** What a step must keep to for a run to stay of its kind. */
  ghost predicate Befits(kind: Kind, w: World, a: Action) {
    && (kind == LosslessRun ==> LosesNothing(w, a))
    && (kind == OrderedRun ==> LowersNothing(w, a))
  }

  ghost predicate IsOfKind(kind: Kind, env: Env, run: seq<Action>)
    requires IsRun(env, run)
  {
    && (kind == LosslessRun ==> NothingIsLost(env, run))
    && (kind == OrderedRun ==> NothingLowered(env, run))
  }

  ghost predicate Inv(kind: Kind, env: Env, w: World) {
    && StoreOk(kind, w)
    && TxnsOk(kind, env, w)
    && Exclusive(w)
    && RepliesCounted(w)
    && Capped(env, w)
    && ExposuresOk(kind, w)
  }

  // ---------------------------------------------------------------- the frame of a step

  /** What a step of transaction `t` may do to the world that others see: sessions grow, ids are
      never reused, and sessions that others hold locked stay as they are, but for coach replies. */
  ghost predicate Frame(kind: Kind, w: World, w': World, t: Option<Tid>) {
    && w.used <= w'.used
    && (forall sid :: sid in w.db && sid in w'.db ==> Evolves(kind, w.db[sid], w'.db[sid]))
    && (forall sid :: sid in w'.db && sid !in w.db ==> sid !in w.used)
    && (forall u :: u in w.inflight && Some(u) != t ==> u in w'.inflight && w'.inflight[u] == w.inflight[u])
    && (forall u :: u in w'.inflight && Some(u) != t ==> u in w.inflight)
    && (forall u, sid {:trigger Holds(w.inflight[u], sid)} ::
          u in w.inflight && Some(u) != t && Holds(w.inflight[u], sid) && sid in w.db
          ==> sid in w'.db && SameState(w.db[sid], w'.db[sid]))
  }

  lemma PastIsKept(kind: Kind, w: World, w': World, t: Option<Tid>, sid: Sid, seen: Session)
    requires Frame(kind, w, w', t) && Past(kind, w, sid, seen)
    ensures Past(kind, w', sid, seen)
  {
    if sid in w'.db {
      EvolvesIsTransitive(kind, seen, w.db[sid], w'.db[sid]);
    }
  }

  lemma TakenIsKept(s: Session, s': Session, at: nat)
    requires Grows(s, s') && Taken(s, at)
    ensures Taken(s', at)
  {
    assert s.messages.Keys <= s'.messages.Keys;
    SubsetIsNoLarger(s.messages.Keys, s'.messages.Keys);
  }

  lemma OthersAreKept(kind: Kind, env: Env, w: World, w': World, t: Option<Tid>, u: Tid)
    requires Frame(kind, w, w', t) && u in w.inflight && Some(u) != t && TxnOk(kind, env, w, w.inflight[u])
    ensures TxnOk(kind, env, w', w.inflight[u])
  {
    var txn := w.inflight[u];
    match txn
    case Addressed(_, url, seen) => PastIsKept(kind, w, w', t, url, seen);
    case Landed(_, _, target, seen, placed) =>
      if target.Existing? {
        assert Holds(txn, target.sid);
        PastIsKept(kind, w, w', t, target.sid, seen);
        if placed.Some? { TakenIsKept(w.db[target.sid], w'.db[target.sid], placed.value); }
      }
    case Posted(sid, _, seen, placed) =>
      assert Holds(txn, sid);
      PastIsKept(kind, w, w', t, sid, seen);
      if placed.Some? { TakenIsKept(w.db[sid], w'.db[sid], placed.value); }
    case Owing(sid, _, _, _, _) => UnservedIsKept(kind, w, w', t, sid);
    case Replying(sid, _, at) =>
      UnservedIsKept(kind, w, w', t, sid);
      if sid in w'.db { TakenIsKept(w.db[sid], w'.db[sid], at); }
    case Switching(sid, seen, _) =>
      assert Holds(txn, sid);
      PastIsKept(kind, w, w', t, sid, seen);
    case Resetting(sid, seen, deleting) =>
      assert Holds(txn, sid);
      PastIsKept(kind, w, w', t, sid, seen);
      if deleting.Some? {
        forall d | d in deleting.value ensures d in RowsFor(w'.db, seen.row.user, seen.row.problem) {
          assert Holds(txn, d);
        }
      }
    case Clearing(user, doomed) =>
      forall d | d in doomed ensures d in RowsOf(w'.db, user) { assert Holds(txn, d); }
    case Purging(now, doomed) =>
      forall d | d in doomed ensures d in ExpiredRows(w'.db, now) { assert Holds(txn, d); }
  }

  lemma UnservedIsKept(kind: Kind, w: World, w': World, t: Option<Tid>, sid: Sid)
    requires Frame(kind, w, w', t) && Unserved(w, sid)
    ensures Unserved(w', sid)
  {
    if sid in w'.db {
      var i :| 0 <= i < |w.db[sid].calls| && w.db[sid].calls[i].judge != Client;
      assert w'.db[sid].calls[i] == w.db[sid].calls[i];
    }
  }

  /** The parts of the invariant that speak of transactions and exposures survive any framed step,
      given that the step's own transaction is in order and locks only what was free. */
  lemma FramedStepKeepsTxns(kind: Kind, env: Env, w: World, w': World, t: Option<Tid>)
    requires Inv(kind, env, w) && Frame(kind, w, w', t)
    requires t.Some? && t.value in w'.inflight ==> TxnOk(kind, env, w', w'.inflight[t.value])
    requires t.Some? && t.value in w'.inflight ==>
               forall sid :: Holds(w'.inflight[t.value], sid) ==> Free(w, t.value, sid)
    ensures TxnsOk(kind, env, w') && Exclusive(w')
  {
    forall u | u in w'.inflight ensures TxnOk(kind, env, w', w'.inflight[u]) {
      if Some(u) != t { OthersAreKept(kind, env, w, w', t, u); }
    }
  }

  /** What the step shows beyond what was shown before is in order. */
  ghost predicate Shows(kind: Kind, w: World, w': World) {
    && w.exposed <= w'.exposed
    && forall i :: |w.exposed| <= i < |w'.exposed| ==> ExposureOk(kind, w', w'.exposed[i])
  }

  lemma ShowsOne(kind: Kind, w: World, w': World, e: Exposure)
    requires w'.exposed == w.exposed + [e] && ExposureOk(kind, w', e)
    ensures Shows(kind, w, w')
  {
  }

  lemma ExposuresAreKept(kind: Kind, w: World, w': World, t: Option<Tid>)
    requires Frame(kind, w, w', t) && ExposuresOk(kind, w) && Shows(kind, w, w')
    ensures ExposuresOk(kind, w')
  {
    forall i | 0 <= i < |w'.exposed| ensures ExposureOk(kind, w', w'.exposed[i]) {
      if i < |w.exposed| {
        assert w'.exposed[i] == w.exposed[i];
        if w.exposed[i].sid.Some? { PastIsKept(kind, w, w', t, w.exposed[i].sid.value, w.exposed[i].seen); }
      }
    }
  }
}
