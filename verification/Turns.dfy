/** tutor/orchestration/turn.py and the transaction skeletons of tutor/routes/sessions.py.

    Each transaction is a method over the Database class, proved against a function of the store it
    started from; the functions are what Protocol.dfy runs concurrently. */
module Turns {
  import opened Wrappers
  import opened Steps
  import opened Verdicts
  import opened Fsm
  import opened Gate
  import opened Catalog
  import opened Store
  import opened Quotas

  datatype TurnError = StaleTurn | StepMismatch | GateEscaped

  /** What a submitted turn carries. */
  datatype TurnReq = TurnReq(user: string, problem: string, origin: string, step: Step, answer: string,
                             turnId: Option<TurnId>, rubric: string)

  /** An answer with its judgement, ready to be written. A reply is written along on the BYOK path. */
  datatype Turn = Turn(answer: string, turnId: Option<TurnId>, judge: Judge, outcome: GateOutcome,
                       verdict: GateVerdict, reply: Option<string>, now: int)

  datatype TurnOutcome = TurnOutcome(sid: Sid, row: Row, evaluatedStep: Step, verdict: GateVerdict,
                                     advanced: bool, completed: bool, replayed: bool)

  // ---------------------------------------------------------------- the writes of one turn

  function AnswerOf(seen: Row, turn: Turn): Message {
    Message(User, seen.step, turn.answer, turn.turnId, None)
  }

  function CallOf(seen: Row, at: nat, turn: Turn): Call {
    Call(turn.turnId, seen.step, at, seen.rubric, turn.judge, turn.outcome,
         turn.verdict.verdict, turn.verdict.score, turn.verdict.missing, turn.verdict.hint)
  }

  function NextState(seen: Row, turn: Turn): SessionState {
    ApplyVerdict(StateOf(seen), turn.verdict).state
  }

  /** The user message, the gate row, the audit row, on the BYOK path the coach reply, and the state:
      everything that was read of the row comes from `seen`. */
  function RecordTurn(s: Session, seen: Row, at: nat, turn: Turn): Session {
    var state := NextState(seen, turn);
    var s1 := InsertMessage(s, at, AnswerOf(seen, turn));
    var s2 := UpsertGate(s1, seen.step, turn.verdict, state.attempts, turn.judge, turn.now);
    var s3 := AddGateCall(s2, CallOf(seen, at, turn), turn.verdict);
    var s4 := if turn.reply.Some?
              then InsertMessage(s3, at + 1, Message(Coach, seen.step, turn.reply.value, None, seen.model)) else s3;
    SaveState(s4, seen.version, state, turn.turnId, turn.now)
  }

  /** The row as the handler reflects the committed state on it. The guarded UPDATE has already set the
      columns of the row that the ORM session holds, its version among them, so adding one to that
      version makes it two more than was read, and the version is the one column left unequal to the
      committed row. */
  function Reflected(seen: Row, turn: Turn): Row {
    var state := NextState(seen, turn);
    seen.(status := state.status, step := state.step, stepIndex := StepIndex(state.step),
          attempts := state.attempts, hintLevel := state.hintLevel, version := ReflectedVersion(seen))
  }

  function ReflectedVersion(seen: Row): nat {
    seen.version + 2
  }

  function Recorded(sid: Sid, seen: Row, turn: Turn): TurnOutcome {
    var t := ApplyVerdict(StateOf(seen), turn.verdict);
    TurnOutcome(sid, Reflected(seen, turn), seen.step, turn.verdict, t.advanced, t.completed, false)
  }

  function Replay(sid: Sid, seen: Row): TurnOutcome {
    TurnOutcome(sid, seen, seen.step, RetryFailsafe("(already recorded)"), false, seen.status == Completed, true)
  }

  predicate IsReplay(s: Session, turnId: Option<TurnId>) {
    turnId.Some? && HasTurn(s, turnId.value)
  }

  // ---------------------------------------------------------------- one turn as a function of the store

  /** A turn landing on `db[sid]`, whose row the handler holds as `seen`; `base` is what a refusal
      rolls back to. */
  ghost function Land(base: Db, db: Db, sid: Sid, seen: Row, step: Step, turn: Turn): (r: (Db, Result<TurnOutcome, TurnError>))
    requires sid in db
  {
    if IsReplay(db[sid], turn.turnId) then (base, Ok(Replay(sid, seen)))
    else if seen.status == Completed then (base, Err(StepMismatch))
    else if step != seen.step then (base, Err(StepMismatch))
    else if db[sid].row.version != seen.version then (base, Err(StaleTurn))
    else (db[sid := RecordTurn(db[sid], seen, NextSeq(db[sid]), turn)], Ok(Recorded(sid, seen, turn)))
  }

  function FreshFor(req: TurnReq, now: int): Session {
    NewSession(req.user, req.problem, req.origin, TrackOf(req.step), req.rubric, None, false, now)
  }

  function ServerTurnOf(req: TurnReq, verdict: GateVerdict, outcome: GateOutcome, now: int): Turn {
    Turn(req.answer, req.turnId, Llm, outcome, verdict, None, now)
  }

  /** `cached` is the row the ORM session already holds for an id, with the attributes it had when it
      was first read: a later locked read of the same id returns it unrefreshed. */
  function Seen(cached: Option<(Sid, Row)>, sid: Sid, current: Row): Row {
    if cached.Some? && cached.value.0 == sid then cached.value.1 else current
  }

  /** apply_turn. The row is found by user and problem, or created on the submitted step's ladder. */
  ghost function ServerTurn(db: Db, cached: Option<(Sid, Row)>, minted: Sid, req: TurnReq,
                            verdict: GateVerdict, outcome: GateOutcome, now: int)
    : (r: (Db, Result<TurnOutcome, TurnError>))
  {
    var turn := ServerTurnOf(req, verdict, outcome, now);
    match GetActive(db, req.user, req.problem)
    case Some(sid) => Land(db, db, sid, Seen(cached, sid, db[sid].row), req.step, turn)
    case None => Land(db, db[minted := FreshFor(req, now)], minted, FreshFor(req, now).row, req.step, turn)
  }

  /** apply_byok_turn, on the row the route fetched by id for update. */
  ghost function ByokTurn(db: Db, sid: Sid, step: Step, turn: Turn): (r: (Db, Result<TurnOutcome, TurnError>))
    requires sid in db
  {
    Land(db, db, sid, db[sid].row, step, turn)
  }

  // ---------------------------------------------------------------- the same as transactions

  /** The inserts and the guarded update that end both kinds of turn. */
  method WriteTurn(d: Database, sid: Sid, seen: Row, turn: Turn) returns (ok: bool)
    requires sid in d.working && !IsReplay(d.working[sid], turn.turnId)
    modifies d`working
    ensures ok <==> old(d.working)[sid].row.version == seen.version
    ensures ok ==> d.working == old(d.working)[sid := RecordTurn(old(d.working)[sid], seen, NextSeq(old(d.working)[sid]), turn)]
  {
    ghost var s := d.working[sid];
    var at := d.AppendMessage(sid, AnswerOf(seen, turn));
    ghost var s1 := d.working[sid];
    var state := NextState(seen, turn);
    d.Upsert(sid, seen.step, turn.verdict, state.attempts, turn.judge, turn.now);
    d.AddCall(sid, CallOf(seen, at.value, turn), turn.verdict);
    ghost var s3 := d.working[sid];
    assert s3 == AddGateCall(UpsertGate(s1, seen.step, turn.verdict, state.attempts, turn.judge, turn.now),
                             CallOf(seen, at.value, turn), turn.verdict);
    if turn.reply.Some? {
      NextSeqAfterAppend(s, AnswerOf(seen, turn), s3);
      var replyAt := d.AppendMessage(sid, Message(Coach, seen.step, turn.reply.value, None, seen.model));
    }
    ok := d.SaveStateOf(sid, seen.version, state, turn.turnId, turn.now);
  }

  method ApplyTurn(d: Database, lenient: bool, answer: Option<Raw>, cached: Option<(Sid, Row)>, minted: Sid,
                   req: TurnReq, now: int) returns (r: Result<TurnOutcome, TurnError>)
    requires d.working == d.committed && OneActive(d.committed) && minted !in d.committed
    modifies d
    ensures d.working == d.committed
    ensures var e := Judgement(lenient, answer);
            if e.Evaluated? then (d.committed, r) == ServerTurn(old(d.committed), cached, minted, req, e.verdict, e.outcome, now)
            else d.committed == old(d.committed) && (r.Ok? ==> r.value.replayed)
  {
    var found := d.GetActiveLocked(req.user, req.problem);
    var sid, seen;
    if found.None? {
      var created := d.Create(minted, req.user, req.problem, req.origin, TrackOf(req.step), req.rubric, None, false, now);
      sid, seen := minted, FreshFor(req, now).row;
    } else {
      sid := found.value;
      seen := Seen(cached, sid, d.working[sid].row);
    }
    if req.turnId.Some? {
      var replayed := d.FindByTurn(sid, req.turnId.value);
      if replayed {
        d.Rollback();
        return Ok(Replay(sid, seen));
      }
    }
    if seen.status == Completed || req.step != seen.step {
      d.Rollback();
      return Err(StepMismatch);
    }
    var evaluation := Evaluate(lenient, answer);
    if evaluation.Escaped? {
      d.Rollback();
      return Err(GateEscaped);
    }
    var turn := ServerTurnOf(req, evaluation.verdict, evaluation.outcome, now);
    var ok := WriteTurn(d, sid, seen, turn);
    if !ok {
      d.Rollback();
      return Err(StaleTurn);
    }
    d.Commit();
    r := Ok(Recorded(sid, seen, turn));
  }

  method ApplyByokTurn(d: Database, sid: Sid, step: Step, turn: Turn) returns (r: Result<TurnOutcome, TurnError>)
    requires d.working == d.committed && sid in d.committed && turn.reply.Some?
    modifies d
    ensures d.working == d.committed
    ensures (d.committed, r) == ByokTurn(old(d.committed), sid, step, turn)
  {
    var seen := d.working[sid].row;
    if turn.turnId.Some? {
      var replayed := d.FindByTurn(sid, turn.turnId.value);
      if replayed {
        return Ok(Replay(sid, seen));
      }
    }
    if seen.status == Completed || step != seen.step {
      return Err(StepMismatch);
    }
    var ok := WriteTurn(d, sid, seen, turn);
    d.Commit();
    r := Ok(Recorded(sid, seen, turn));
  }

  /** byok-record: the row is fetched by id for its owner and locked, the transport and the quota are
      checked, and then the turn runs. */
  ghost function ByokPost(env: Env, db: Db, user: string, sid: Sid, step: Step, turn: Turn): (r: (Db, Result<TurnOutcome, RouteError>)) {
    if sid !in db || db[sid].row.user != user then (db, Err(NotFound))
    else if !db[sid].row.byok then (db, Err(NotByok))
    else if !UnderQuota(env, user, db[sid]) then (db, Err(QuotaExceeded))
    else match ByokTurn(db, sid, step, turn)
      case (after, Ok(outcome)) => (after, Ok(outcome))
      case (after, Err(error)) => (after, Err(TurnRefused(error)))
  }

  method PostByokTurn(d: Database, env: Env, user: string, sid: Sid, step: Step, turn: Turn)
    returns (r: Result<TurnOutcome, RouteError>)
    requires d.working == d.committed && turn.reply.Some?
    modifies d
    ensures d.working == d.committed
    ensures (d.committed, r) == ByokPost(env, old(d.committed), user, sid, step, turn)
  {
    var found := d.GetForUserLocked(sid, user);
    if found.None? {
      return Err(NotFound);
    }
    if !found.value.byok {
      return Err(NotByok);
    }
    if user in env.capped {
      var next := d.NextSeqOf(sid);
      if next > env.cap {
        return Err(QuotaExceeded);
      }
    }
    var outcome := ApplyByokTurn(d, sid, step, turn);
    r := match outcome case Ok(recorded) => Ok(recorded) case Err(error) => Err(TurnRefused(error));
  }

  // ---------------------------------------------------------------- what follows a server turn

  /** The route reads the history in the ORM session that still holds the reflected row, which flushes
      it; the commit of the grounding reference, made only when the lesson has a citation, keeps what
      was flushed, and otherwise it is rolled back. False is the error of flushing a row that is gone. */
  method FollowUp(d: Database, outcome: TurnOutcome, cited: bool) returns (ok: bool)
    requires d.working == d.committed
    modifies d
    ensures d.working == d.committed
    ensures ok <==> outcome.replayed || outcome.sid in old(d.committed)
    ensures d.committed == if ok && cited && !outcome.replayed
                           then Reflect(old(d.committed), outcome.sid, outcome.row.version) else old(d.committed)
  {
    if outcome.replayed {
      return true;
    }
    ok := d.FlushVersion(outcome.sid, outcome.row.version);
    if ok && cited {
      d.Commit();
    } else {
      d.Rollback();
    }
  }

  function Reflect(db: Db, sid: Sid, version: nat): Db
    requires sid in db
  {
    db[sid := Followed(db[sid], version)]
  }

  lemma NextSeqAfterAppend(s: Session, m: Message, t: Session)
    requires t.messages == s.messages[NextSeq(s) := m]
    ensures NextSeq(t) == NextSeq(s) + 1
  {
    assert NextSeq(s) in t.messages.Keys;
  }

  /** The reply streamed after a server turn, in a transaction of its own. */
  method RecordCoachReply(d: Database, sid: Sid, step: Step, content: string, model: Option<ModelKey>) returns (ok: bool)
    requires d.working == d.committed
    modifies d
    ensures d.working == d.committed
    ensures ok <==> sid in old(d.committed)
    ensures d.committed == if ok then CoachReply(old(d.committed), sid, step, content, model) else old(d.committed)
    ensures ok ==> var s := old(d.committed)[sid];
              && d.committed == old(d.committed)[sid := d.committed[sid]]
              && d.committed[sid].(messages := s.messages) == s
              && d.committed[sid].messages
                 == s.messages[NextSeq(s) := Message(role := Coach, step := step, content := content, turnId := None, model := model)]
  {
    ok := sid in d.working;
    if ok {
      var at := d.AppendMessage(sid, Message(Coach, step, content, None, model));
      d.Commit();
    }
  }

  ghost function CoachReply(db: Db, sid: Sid, step: Step, content: string, model: Option<ModelKey>): Db
    requires sid in db
  {
    db[sid := InsertMessage(db[sid], NextSeq(db[sid]), Message(Coach, step, content, None, model))]
  }

  // ---------------------------------------------------------------- create, reset, clear, switch, purge

  datatype RouteError = NotFound | NotActive | NotByok | QuotaExceeded | TurnRefused(error: TurnError)

  function CreateSession(db: Db, minted: Sid, user: string, problem: string, origin: string, track: Track,
                         rubric: string, entry: Entry, now: int): Db
  {
    db[minted := NewSession(user, problem, origin, track, rubric, Some(entry.key), TransportOf(entry), now)]
  }

  method CreateOrResume(d: Database, minted: Sid, user: string, problem: string, origin: string, track: Track,
                        rubric: string, entry: Entry, now: int) returns (sid: Sid)
    requires d.working == d.committed && OneActive(d.committed) && minted !in d.committed
    modifies d
    ensures d.working == d.committed && sid in d.committed && IsActiveFor(d.committed[sid].row, user, problem)
    ensures d.committed == if HasActive(old(d.committed), user, problem) then old(d.committed)
                           else CreateSession(old(d.committed), minted, user, problem, origin, track, rubric, entry, now)
    ensures sid == match GetActive(old(d.committed), user, problem) case Some(found) => found case None => minted
  {
    var found := d.GetActiveLocked(user, problem);
    if found.Some? {
      return found.value;
    }
    var ok := d.Create(minted, user, problem, origin, track, rubric, Some(entry.key), TransportOf(entry), now);
    d.Commit();
    sid := minted;
  }

  /** Reset of a row: every session of its user and problem goes, one fresh one comes. */
  ghost function ResetOf(db: Db, row: Row, minted: Sid, rubric: string, tier: Tier, hasLocal: bool, now: int): Db {
    CreateSession(Without(db, RowsFor(db, row.user, row.problem)), minted, row.user, row.problem, row.origin, row.track,
                  rubric, CarriedModel(row.model, tier, hasLocal), now)
  }

  method ResetSession(d: Database, sid: Sid, user: string, minted: Sid, rubric: string, tier: Tier, hasLocal: bool, now: int)
    returns (r: Result<Sid, RouteError>)
    requires d.working == d.committed && OneActive(d.committed) && minted !in d.committed
    modifies d
    ensures d.working == d.committed
    ensures r.Ok? <==> sid in old(d.committed) && old(d.committed)[sid].row.user == user
    ensures r.Ok? ==> r.value == minted
    ensures d.committed == if r.Ok? then ResetOf(old(d.committed), old(d.committed)[sid].row, minted, rubric, tier, hasLocal, now)
                           else old(d.committed)
  {
    var found := d.GetForUserLocked(sid, user);
    if found.None? {
      return Err(NotFound);
    }
    var row := found.value;
    var entry := CarriedModel(row.model, tier, hasLocal);
    var removed := d.Delete(RowsFor(d.working, user, row.problem));
    var ok := d.Create(minted, user, row.problem, row.origin, row.track, rubric, Some(entry.key), TransportOf(entry), now);
    d.Commit();
    r := Ok(minted);
  }

  method ClearAll(d: Database, user: string) returns (deleted: nat)
    requires d.working == d.committed
    modifies d
    ensures d.working == d.committed == Without(old(d.committed), RowsOf(old(d.committed), user))
    ensures var db := old(d.committed);
            && (forall sid :: sid in d.committed <==> sid in db && db[sid].row.user != user)
            && (forall sid :: sid in d.committed ==> d.committed[sid] == db[sid])
            && deleted == |set sid | sid in db && db[sid].row.user == user|
  {
    assert RowsOf(d.working, user) == set sid | sid in d.working && d.working[sid].row.user == user;
    deleted := d.Delete(RowsOf(d.working, user));
    d.Commit();
  }

  method PurgeExpired(d: Database, now: int) returns (deleted: nat)
    requires d.working == d.committed
    modifies d
    ensures d.working == d.committed == Without(old(d.committed), ExpiredRows(old(d.committed), now))
    ensures var db := old(d.committed);
            && (forall sid :: sid in d.committed <==> sid in db && now <= db[sid].row.expiresAt)
            && (forall sid :: sid in d.committed ==> d.committed[sid] == db[sid])
            && deleted == |set sid | sid in db && db[sid].row.expiresAt < now|
  {
    assert ExpiredRows(d.working, now) == set sid | sid in d.working && d.working[sid].row.expiresAt < now;
    deleted := d.Delete(ExpiredRows(d.working, now));
    d.Commit();
  }

  method ChangeModel(d: Database, sid: Sid, user: string, entry: Entry, now: int) returns (r: Result<Row, RouteError>)
    requires d.working == d.committed
    modifies d
    ensures d.working == d.committed
    ensures var db := old(d.committed);
            && (r.Ok? <==> sid in db && db[sid].row.user == user && db[sid].row.status == Active)
            && d.committed == if r.Ok? then db[sid := SetCoachModel(db[sid], db[sid].row.version, entry, now)] else db
    ensures r.Ok? ==> sid in d.committed && r.value == d.committed[sid].row && r.value.model == Some(entry.key)
  {
    var found := d.GetForUserLocked(sid, user);
    if found.None? {
      return Err(NotFound);
    }
    if found.value.status != Active {
      return Err(NotActive);
    }
    var ok := d.SetCoachModelOf(sid, found.value.version, entry, now);
    d.Commit();
    r := Ok(d.committed[sid].row);
  }
}
