/** The concurrent machine: transactions split at the statements where READ COMMITTED lets others in.

    A transaction's reads happen at the step that takes them; its writes become visible, and its
    unique-index, foreign-key and version checks are decided, at its commit. A row lock is held from
    the locking step to the end of the transaction. A row read without a lock may be arbitrarily old
    by the time it is used: `seen` is the session as it was at that read. After a server turn whose
    lesson has a citation, the row that its ORM session reflected is flushed and committed: `pending`
    is the version that flush will write, whatever the row's version is by then. */
module Protocol {
  import opened Wrappers
  import opened Steps
  import opened Verdicts
  import opened Fsm
  import opened Gate
  import opened Catalog
  import opened Store
  import opened Quotas
  import opened Turns

  type Tid = nat

  /** The row a server turn landed on: the active one, locked when its row was `locked`, or one that
      the transaction itself inserts. */
  datatype Target = Existing(sid: Sid, locked: Row) | Inserted

  datatype Txn =
    | Addressed(req: TurnReq, url: Sid, seen: Session)
    | Landed(req: TurnReq, url: Sid, target: Target, seen: Session, placed: Option<nat>)
    | Posted(sid: Sid, turn: Turn, seen: Session, placed: Option<nat>)
    | Owing(sid: Sid, step: Step, model: Option<ModelKey>, addressed: bool, pending: Option<nat>)
    | Replying(sid: Sid, reply: Message, at: nat)
    | Switching(sid: Sid, seen: Session, entry: Entry)
    | Resetting(sid: Sid, seen: Session, deleting: Option<set<Sid>>)
    | Clearing(user: string, doomed: set<Sid>)
    | Purging(now: int, doomed: set<Sid>)

  /** The committed transactions, with what they were asked for and what the outside world answered. */
  datatype Op =
    | OpServer(req: TurnReq, minted: Sid, verdict: GateVerdict, outcome: GateOutcome, now: int)
    | OpByok(sid: Sid, turn: Turn, step: Step)
    | OpFollow(sid: Sid, version: nat)
    | OpReply(sid: Sid, reply: Message)
    | OpSwitch(sid: Sid, entry: Entry, now: int)
    | OpCreate(minted: Sid, user: string, problem: string, origin: string, track: Track, rubric: string, entry: Entry, now: int)
    | OpReset(sid: Sid, minted: Sid, rubric: string, tier: Tier, hasLocal: bool, now: int)
    | OpClear(user: string)
    | OpPurge(now: int)

  /** A problem context built for `step` and handed to a model for a session, as that session was
      when its row was read. */
  datatype Exposure = Exposure(sid: Option<Sid>, step: Step, seen: Session)

  datatype World = World(db: Db, used: set<Sid>, inflight: map<Tid, Txn>, log: seq<Op>, exposed: seq<Exposure>)

  const START := World(map[], {}, map[], [], [])

  datatype Action =
    | ReadAddressed(t: Tid, req: TurnReq, url: Sid)
    | LandTurn(t: Tid, now: int)
    | AppendAnswer(t: Tid)
    | CommitServer(t: Tid, minted: Sid, verdict: GateVerdict, outcome: GateOutcome, now: int, cited: bool)
    | FollowUp(t: Tid)
    | LockPosted(t: Tid, user: string, sid: Sid, step: Step, turn: Turn)
    | AppendPosted(t: Tid)
    | CommitPosted(t: Tid)
    | BeginReply(t: Tid, content: string)
    | CommitReply(t: Tid)
    | LockSwitch(t: Tid, user: string, sid: Sid, requested: Option<ModelKey>, hasLocal: bool)
    | CommitSwitch(t: Tid, now: int)
    | CommitCreate(minted: Sid, user: string, problem: string, origin: string, track: Track, rubric: string,
                   requested: Option<ModelKey>, hasLocal: bool, now: int)
    | LockReset(t: Tid, user: string, sid: Sid)
    | DeleteForReset(t: Tid, doomed: set<Sid>)
    | CommitReset(t: Tid, minted: Sid, rubric: string, hasLocal: bool, now: int)
    | DeleteForClear(t: Tid, user: string, doomed: set<Sid>)
    | DeleteForPurge(t: Tid, now: int, doomed: set<Sid>)
    | CommitErase(t: Tid)
    | Bundle(user: string, sid: Sid, step: Step)
    | Abandon(t: Tid)

  // ---------------------------------------------------------------- locks

  predicate Holds(txn: Txn, sid: Sid) {
    match txn
    case Landed(_, _, Existing(s, _), _, _) => s == sid
    case Posted(s, _, _, _) => s == sid
    case Switching(s, _, _) => s == sid
    case Resetting(s, _, deleting) => s == sid || (deleting.Some? && sid in deleting.value)
    case Clearing(_, doomed) => sid in doomed
    case Purging(_, doomed) => sid in doomed
    case _ => false
  }

  predicate Free(w: World, t: Tid, sid: Sid) {
    forall u | u in w.inflight && u != t :: !Holds(w.inflight[u], sid)
  }

  predicate AllFree(w: World, t: Tid, sids: set<Sid>) {
    forall sid | sid in sids :: Free(w, t, sid)
  }

  // ---------------------------------------------------------------- what each step needs

  ghost function LandedSession(w: World, a: Txn, now: int): Session
    requires a.Addressed?
  {
    match GetActive(w.db, a.req.user, a.req.problem)
    case Some(sid) => if sid == a.url then a.seen else w.db[sid]
    case None => FreshFor(a.req, now)
  }

  ghost function LandedTarget(w: World, a: Txn): Target
    requires a.Addressed?
  {
    match GetActive(w.db, a.req.user, a.req.problem)
    case Some(sid) => Existing(sid, w.db[sid].row)
    case None => Inserted
  }

  /** The session a landed turn writes to, as it is committed now. */
  ghost function TargetNow(w: World, txn: Txn): Option<Session>
    requires txn.Landed?
  {
    match txn.target
    case Existing(sid, _) => if sid in w.db then Some(w.db[sid]) else None
    case Inserted => if HasActive(w.db, txn.req.user, txn.req.problem) then None else Some(txn.seen)
  }

  function TurnOf(txn: Txn, verdict: GateVerdict, outcome: GateOutcome, now: int): Turn
    requires txn.Landed?
  {
    ServerTurnOf(txn.req, verdict, outcome, now)
  }

  /** The constraints a turn's inserts meet at commit, and its WHERE version = expected. */
  ghost predicate MayRecord(s: Session, seen: Row, at: nat, turn: Turn) {
    && MayInsert(s, at, AnswerOf(seen, turn))
    && (turn.reply.Some? ==> at + 1 !in s.messages)
    && s.row.version == seen.version
  }

  /** What a DELETE ends up holding: free rows that its predicate selects, but perhaps not all of them,
      since a statement that waited for a lock keeps the snapshot it started with. */
  predicate MayDelete(w: World, t: Tid, doomed: set<Sid>, selected: set<Sid>) {
    doomed <= selected && AllFree(w, t, doomed)
  }

  ghost predicate Enabled(env: Env, w: World, a: Action) {
    match a
    case ReadAddressed(t, req, url) =>
      && t !in w.inflight && url in w.db
      && w.db[url].row.user == req.user && w.db[url].row.problem == req.problem && w.db[url].row.origin == req.origin
      && !w.db[url].row.byok && UnderQuota(env, req.user, w.db[url])
    case LandTurn(t, now) =>
      && t in w.inflight && w.inflight[t].Addressed?
      && var txn := w.inflight[t]; var target := LandedTarget(w, txn); var seen := LandedSession(w, txn, now).row;
      && (target.Existing? ==> Free(w, t, target.sid) && !IsReplay(w.db[target.sid], txn.req.turnId))
      && seen.status == Active && seen.step == txn.req.step
    case AppendAnswer(t) =>
      && t in w.inflight && w.inflight[t].Landed? && w.inflight[t].placed == None
      && TargetNow(w, w.inflight[t]).Some?
    case CommitServer(t, minted, verdict, outcome, now, _) =>
      && t in w.inflight && w.inflight[t].Landed? && w.inflight[t].placed.Some? && minted !in w.used
      && var txn := w.inflight[t];
      && TargetNow(w, txn).Some?
      && MayRecord(TargetNow(w, txn).value, txn.seen.row, txn.placed.value, TurnOf(txn, verdict, outcome, now))
    case FollowUp(t) =>
      && t in w.inflight && w.inflight[t].Owing? && w.inflight[t].pending.Some?
      && w.inflight[t].sid in w.db && Free(w, t, w.inflight[t].sid)
    case LockPosted(t, user, sid, step, turn) =>
      && t !in w.inflight && sid in w.db && Free(w, t, sid)
      && w.db[sid].row.user == user && w.db[sid].row.byok && UnderQuota(env, user, w.db[sid])
      && !IsReplay(w.db[sid], turn.turnId)
      && w.db[sid].row.status == Active && w.db[sid].row.step == step
      && turn.judge == Client && turn.reply.Some? && turn.outcome in {Valid, Coerced}
    case AppendPosted(t) =>
      t in w.inflight && w.inflight[t].Posted? && w.inflight[t].placed == None && w.inflight[t].sid in w.db
    case CommitPosted(t) =>
      && t in w.inflight && w.inflight[t].Posted? && w.inflight[t].placed.Some? && w.inflight[t].sid in w.db
      && var txn := w.inflight[t]; MayRecord(w.db[txn.sid], txn.seen.row, txn.placed.value, txn.turn)
    case BeginReply(t, _) =>
      t in w.inflight && w.inflight[t].Owing? && w.inflight[t].pending == None && w.inflight[t].sid in w.db
    case CommitReply(t) =>
      && t in w.inflight && w.inflight[t].Replying? && w.inflight[t].sid in w.db
      && MayInsert(w.db[w.inflight[t].sid], w.inflight[t].at, w.inflight[t].reply)
    case LockSwitch(t, user, sid, requested, hasLocal) =>
      && t !in w.inflight && sid in w.db && Free(w, t, sid)
      && w.db[sid].row.user == user && w.db[sid].row.status == Active
      && ValidateChoice(requested, TierOf(env, user), hasLocal).Some?
    case CommitSwitch(t, _) =>
      && t in w.inflight && w.inflight[t].Switching? && w.inflight[t].sid in w.db
      && w.db[w.inflight[t].sid].row.version == w.inflight[t].seen.row.version
    case CommitCreate(minted, user, problem, _, _, _, requested, hasLocal, _) =>
      && minted !in w.used && !HasActive(w.db, user, problem)
      && ValidateChoice(requested, TierOf(env, user), hasLocal).Some?
    case LockReset(t, user, sid) =>
      t !in w.inflight && sid in w.db && Free(w, t, sid) && w.db[sid].row.user == user
    case DeleteForReset(t, doomed) =>
      && t in w.inflight && w.inflight[t].Resetting? && w.inflight[t].deleting == None
      && w.inflight[t].sid in doomed
      && var row := w.inflight[t].seen.row; MayDelete(w, t, doomed, RowsFor(w.db, row.user, row.problem))
    case CommitReset(t, minted, _, _, _) =>
      && t in w.inflight && w.inflight[t].Resetting? && w.inflight[t].deleting.Some? && minted !in w.used
      && var txn := w.inflight[t]; !HasActive(Without(w.db, txn.deleting.value), txn.seen.row.user, txn.seen.row.problem)
    case DeleteForClear(t, user, doomed) =>
      t !in w.inflight && MayDelete(w, t, doomed, RowsOf(w.db, user))
    case DeleteForPurge(t, now, doomed) =>
      t !in w.inflight && MayDelete(w, t, doomed, ExpiredRows(w.db, now))
    case CommitErase(t) =>
      t in w.inflight && (w.inflight[t].Clearing? || w.inflight[t].Purging?)
    case Bundle(user, sid, step) =>
      && sid in w.db && w.db[sid].row.user == user && w.db[sid].row.byok
      && w.db[sid].row.status == Active && w.db[sid].row.step == step
    case Abandon(t) =>
      t in w.inflight
  }

  // ---------------------------------------------------------------- what each step does

  function Put(w: World, t: Tid, txn: Txn): World {
    w.(inflight := w.inflight[t := txn])
  }

  function Drop(w: World, t: Tid): World {
    w.(inflight := map u | u in w.inflight && u != t :: w.inflight[u])
  }

  function Appended(txn: Txn, at: nat): Txn
    requires txn.Landed?
  {
    Landed(txn.req, txn.url, txn.target, txn.seen, Some(at))
  }

  function ExposedTo(txn: Txn): Exposure
    requires txn.Landed?
  {
    Exposure(if txn.target.Existing? then Some(txn.target.sid) else None, txn.req.step, txn.seen)
  }

  /** The session a landed turn commits to. */
  function SidOf(txn: Txn, minted: Sid): Sid
    requires txn.Landed?
  {
    if txn.target.Existing? then txn.target.sid else minted
  }

  function OwingAfter(txn: Txn, minted: Sid, cited: bool): Txn
    requires txn.Landed?
  {
    var sid := SidOf(txn, minted);
    Owing(sid, txn.seen.row.step, txn.seen.row.model, sid == txn.url || txn.target.Inserted?,
          if cited then Some(ReflectedVersion(txn.seen.row)) else None)
  }

  ghost function Perform(env: Env, w: World, a: Action): World
    requires Enabled(env, w, a)
  {
    match a
    case ReadAddressed(t, req, url) => Put(w, t, Addressed(req, url, w.db[url]))
    case LandTurn(t, now) =>
      var txn := w.inflight[t];
      Put(w, t, Landed(txn.req, txn.url, LandedTarget(w, txn), LandedSession(w, txn, now), None))
    case AppendAnswer(t) =>
      // next_seq and the insert; the gate is asked next, with the context of the requested step
      var txn := w.inflight[t];
      Put(w, t, Appended(txn, NextSeq(TargetNow(w, txn).value))).(exposed := w.exposed + [ExposedTo(txn)])
    case CommitServer(t, minted, verdict, outcome, now, cited) =>
      // then the coach streams, with the same context
      var txn := w.inflight[t];
      var sid := SidOf(txn, minted);
      var turn := TurnOf(txn, verdict, outcome, now);
      Put(w, t, OwingAfter(txn, minted, cited)).(
        db := w.db[sid := RecordTurn(TargetNow(w, txn).value, txn.seen.row, txn.placed.value, turn)],
        used := w.used + {sid},
        log := w.log + [OpServer(txn.req, minted, verdict, outcome, now)],
        exposed := w.exposed + [ExposedTo(txn)])
    case FollowUp(t) =>
      var txn := w.inflight[t];
      Put(w, t, txn.(pending := None)).(
        db := Reflect(w.db, txn.sid, txn.pending.value),
        log := w.log + [OpFollow(txn.sid, txn.pending.value)])
    case LockPosted(t, user, sid, step, turn) => Put(w, t, Posted(sid, turn, w.db[sid], None))
    case AppendPosted(t) =>
      var txn := w.inflight[t];
      Put(w, t, Posted(txn.sid, txn.turn, txn.seen, Some(NextSeq(w.db[txn.sid]))))
    case CommitPosted(t) =>
      var txn := w.inflight[t];
      Drop(w, t).(
        db := w.db[txn.sid := RecordTurn(w.db[txn.sid], txn.seen.row, txn.placed.value, txn.turn)],
        log := w.log + [OpByok(txn.sid, txn.turn, txn.seen.row.step)])
    case BeginReply(t, content) =>
      var txn := w.inflight[t];
      Put(w, t, Replying(txn.sid, Message(Coach, txn.step, content, None, txn.model), NextSeq(w.db[txn.sid])))
    case CommitReply(t) =>
      var txn := w.inflight[t];
      Drop(w, t).(
        db := w.db[txn.sid := InsertMessage(w.db[txn.sid], txn.at, txn.reply)],
        log := w.log + [OpReply(txn.sid, txn.reply)])
    case LockSwitch(t, user, sid, requested, hasLocal) =>
      Put(w, t, Switching(sid, w.db[sid], ValidateChoice(requested, TierOf(env, user), hasLocal).value))
    case CommitSwitch(t, now) =>
      var txn := w.inflight[t];
      Drop(w, t).(
        db := w.db[txn.sid := SetCoachModel(w.db[txn.sid], txn.seen.row.version, txn.entry, now)],
        log := w.log + [OpSwitch(txn.sid, txn.entry, now)])
    case CommitCreate(minted, user, problem, origin, track, rubric, requested, hasLocal, now) =>
      var entry := ValidateChoice(requested, TierOf(env, user), hasLocal).value;
      w.(db := CreateSession(w.db, minted, user, problem, origin, track, rubric, entry, now),
         used := w.used + {minted},
         log := w.log + [OpCreate(minted, user, problem, origin, track, rubric, entry, now)])
    case LockReset(t, user, sid) => Put(w, t, Resetting(sid, w.db[sid], None))
    case DeleteForReset(t, doomed) =>
      var txn := w.inflight[t];
      Put(w, t, Resetting(txn.sid, txn.seen, Some(doomed)))
    case CommitReset(t, minted, rubric, hasLocal, now) =>
      var txn := w.inflight[t];
      var row := txn.seen.row;
      var tier := TierOf(env, row.user);
      Drop(w, t).(
        db := CreateSession(Without(w.db, txn.deleting.value), minted, row.user, row.problem, row.origin, row.track, rubric,
                            CarriedModel(row.model, tier, hasLocal), now),
        used := w.used + {minted},
        log := w.log + [OpReset(txn.sid, minted, rubric, tier, hasLocal, now)])
    case DeleteForClear(t, user, doomed) => Put(w, t, Clearing(user, doomed))
    case DeleteForPurge(t, now, doomed) => Put(w, t, Purging(now, doomed))
    case CommitErase(t) =>
      var txn := w.inflight[t];
      Drop(w, t).(
        db := Without(w.db, txn.doomed),
        log := w.log + [if txn.Clearing? then OpClear(txn.user) else OpPurge(txn.now)])
    case Bundle(user, sid, step) =>
      w.(exposed := w.exposed + [Exposure(Some(sid), step, w.db[sid])])
    case Abandon(t) => Drop(w, t)
  }

  // ---------------------------------------------------------------- runs

  /** A run is a list of actions, each enabled where it happens. */
  ghost predicate IsRun(env: Env, run: seq<Action>)
    decreases |run|, 0
  {
    run == [] || (IsRun(env, run[..|run| - 1]) && Enabled(env, After(env, run[..|run| - 1]), run[|run| - 1]))
  }

  ghost function After(env: Env, run: seq<Action>): World
    requires IsRun(env, run)
    decreases |run|, 1
  {
    if run == [] then START else Perform(env, After(env, run[..|run| - 1]), run[|run| - 1])
  }

  /** A reflected row about to be written lowers the version of no row. */
  ghost predicate LowersNothing(w: World, a: Action) {
    a.FollowUp? && a.t in w.inflight && w.inflight[a.t].Owing? && w.inflight[a.t].pending.Some? && w.inflight[a.t].sid in w.db
    ==> w.db[w.inflight[a.t].sid].row.version <= w.inflight[a.t].pending.value
  }

  /** A run in which no reflected row lowers a version: when each is written, the row's version has risen
      by at most one since its turn committed. Runs without citations are among them. */
  ghost predicate NothingLowered(env: Env, run: seq<Action>)
    requires IsRun(env, run)
  {
    run == [] || (NothingLowered(env, run[..|run| - 1]) && LowersNothing(After(env, run[..|run| - 1]), run[|run| - 1]))
  }

  /** A server turn about to commit does to its row what it would do had it seen it as it is. */
  ghost predicate LosesNothing(w: World, a: Action) {
    a.CommitServer? && a.t in w.inflight && w.inflight[a.t].Landed? && TargetNow(w, w.inflight[a.t]).Some?
    ==> NothingLost(StateOf(TargetNow(w, w.inflight[a.t]).value.row), StateOf(w.inflight[a.t].seen.row), a.verdict)
  }

  /** A run in which no server turn loses what another did to its row. */
  ghost predicate NothingIsLost(env: Env, run: seq<Action>)
    requires IsRun(env, run)
  {
    run == [] || (NothingIsLost(env, run[..|run| - 1]) && LosesNothing(After(env, run[..|run| - 1]), run[|run| - 1]))
  }

  // ---------------------------------------------------------------- the serial semantics

  /** One committed transaction, run alone from start to end on a store. */
  ghost function Serial(db: Db, op: Op): Db {
    match op
    case OpServer(req, minted, verdict, outcome, now) => ServerTurn(db, None, minted, req, verdict, outcome, now).0
    case OpByok(sid, turn, step) => if sid in db && db[sid].row.byok then ByokTurn(db, sid, step, turn).0 else db
    case OpFollow(sid, version) => if sid in db then Reflect(db, sid, version) else db
    case OpReply(sid, reply) => if sid in db then CoachReply(db, sid, reply.step, reply.content, reply.model) else db
    case OpSwitch(sid, entry, now) =>
      if sid in db && db[sid].row.status == Active
      then db[sid := SetCoachModel(db[sid], db[sid].row.version, entry, now)] else db
    case OpCreate(minted, user, problem, origin, track, rubric, entry, now) =>
      if HasActive(db, user, problem) then db
      else CreateSession(db, minted, user, problem, origin, track, rubric, entry, now)
    case OpReset(sid, minted, rubric, tier, hasLocal, now) =>
      if sid in db then ResetOf(db, db[sid].row, minted, rubric, tier, hasLocal, now) else db
    case OpClear(user) => Without(db, RowsOf(db, user))
    case OpPurge(now) => Without(db, ExpiredRows(db, now))
  }

  ghost function SerialRun(ops: seq<Op>): Db {
    if ops == [] then map[] else Serial(SerialRun(ops[..|ops| - 1]), ops[|ops| - 1])
  }
}
