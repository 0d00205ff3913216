/** One turn against the store: all or nothing, at most once, and never further than the gate let it. */
module TurnLaws {
  import opened Wrappers
  import opened Steps
  import opened Verdicts
  import opened Fsm
  import opened Gate
  import opened Catalog
  import opened Store
  import opened Turns
  import opened SessionLaws

  // ---------------------------------------------------------------- all or nothing

  /** The learner's own words go in at the next number, and on the browser path the reply after them. */
  ghost predicate MessagesAdded(s: Session, t: Session, seen: Row, turn: Turn) {
    var at := NextSeq(s);
    && at !in s.messages && t.messages.Keys == s.messages.Keys + {at} + (if turn.reply.Some? then {at + 1} else {})
    && (forall k :: k in s.messages ==> k in t.messages && t.messages[k] == s.messages[k])
    && t.messages[at] == Message(role := User, step := seen.step, content := turn.answer, turnId := turn.turnId, model := None)
    && (turn.reply.Some? ==>
          t.messages[at + 1] == Message(role := Coach, step := seen.step, content := turn.reply.value, turnId := None, model := seen.model))
  }

  /** One audit row more, holding what was judged and how. */
  ghost predicate CallAdded(s: Session, t: Session, seen: Row, turn: Turn) {
    && t.calls == s.calls + [Call(turnId := turn.turnId, step := seen.step, answerSeq := NextSeq(s), rubric := seen.rubric,
                                  judge := turn.judge, outcome := turn.outcome, verdict := turn.verdict.verdict,
                                  score := turn.verdict.score, missing := turn.verdict.missing, hint := turn.verdict.hint)]
    && t.trail == s.trail + [turn.verdict]
  }

  /** The gate row of the step holds this verdict; who judged first, and when, it keeps. */
  ghost predicate GateWritten(s: Session, t: Session, seen: Row, turn: Turn) {
    && t.gates.Keys == s.gates.Keys + {seen.step}
    && (forall step :: step in s.gates && step != seen.step ==> t.gates[step] == s.gates[step])
    && var g := t.gates[seen.step];
    && g.verdict == turn.verdict.verdict && g.score == turn.verdict.score && g.missing == turn.verdict.missing
    && g.attempts == ApplyVerdict(StateOf(seen), turn.verdict).state.attempts && g.updatedAt == turn.now
    && (if seen.step in s.gates then SameOrigin(s.gates[seen.step], g) else g.judge == turn.judge && g.createdAt == turn.now)
  }

  /** The row moves by the verdict; everything that a turn does not decide it keeps. */
  ghost predicate RowMoved(s: Session, t: Session, seen: Row, turn: Turn) {
    && StateOf(t.row) == Reloaded(ApplyVerdict(StateOf(seen), turn.verdict).state)
    && t.row.stepIndex == StepIndex(t.row.step)
    && t.row.version == s.row.version + 1 && t.row.lastTurn == turn.turnId && t.row.expiresAt == turn.now + TTL
    && SameIdentity(s.row, t.row) && t.row.model == s.row.model && t.row.byok == s.row.byok
    && t.switches == s.switches
  }

  /** The rows that one turn adds to the session it is recorded in. */
  ghost predicate TurnAdded(s: Session, t: Session, seen: Row, turn: Turn) {
    MessagesAdded(s, t, seen, turn) && CallAdded(s, t, seen, turn) && GateWritten(s, t, seen, turn) && RowMoved(s, t, seen, turn)
  }

  /** What the caller of a recorded turn is told. */
  predicate ToldRecorded(o: TurnOutcome, sid: Sid, seen: Row, turn: Turn) {
    && o.sid == sid && o.evaluatedStep == seen.step && o.verdict == turn.verdict && !o.replayed
    && (o.advanced <==> turn.verdict.verdict == Pass)
    && (o.completed <==> o.row.status == Completed)
    && StateOf(o.row) == Reloaded(ApplyVerdict(StateOf(seen), turn.verdict).state)
    && o.row.stepIndex == StepIndex(o.row.step) && o.row.version == seen.version + 2
    && SameIdentity(seen, o.row) && o.row.model == seen.model && o.row.byok == seen.byok
  }

  /** And of a replayed one: the step as it stands, and no verdict to speak of. */
  predicate ToldReplayed(o: TurnOutcome, sid: Sid, seen: Row) {
    && o.sid == sid && o.row == seen && o.evaluatedStep == seen.step && o.replayed && !o.advanced
    && (o.completed <==> seen.status == Completed)
    && o.verdict.verdict == Retry && o.verdict.score == 0 && o.verdict.hint == "(already recorded)"
  }

  /** What a conflicting upsert leaves alone. */
  predicate SameOrigin(a: GateRow, b: GateRow) {
    a.judge == b.judge && a.createdAt == b.createdAt
  }

  lemma RecordAddsMessages(s: Session, seen: Row, turn: Turn)
    ensures MessagesAdded(s, RecordTurn(s, seen, NextSeq(s), turn), seen, turn)
  {
  }

  lemma RecordWritesGate(s: Session, seen: Row, turn: Turn)
    ensures GateWritten(s, RecordTurn(s, seen, NextSeq(s), turn), seen, turn)
  {
  }

  lemma RecordTurnAdds(s: Session, seen: Row, turn: Turn)
    requires s.row.version == seen.version
    ensures TurnAdded(s, RecordTurn(s, seen, NextSeq(s), turn), seen, turn)
  {
    RecordAddsMessages(s, seen, turn);
    RecordWritesGate(s, seen, turn);
    RecordMovesRow(s, seen, turn);
  }

  lemma RecordMovesRow(s: Session, seen: Row, turn: Turn)
    requires s.row.version == seen.version
    ensures RowMoved(s, RecordTurn(s, seen, NextSeq(s), turn), seen, turn)
    ensures CallAdded(s, RecordTurn(s, seen, NextSeq(s), turn), seen, turn)
  {
  }

  lemma RecordedTells(sid: Sid, seen: Row, turn: Turn)
    requires seen.status == Active
    ensures ToldRecorded(Recorded(sid, seen, turn), sid, seen, turn)
  {
  }

  /** A turn that is refused, stale or replayed leaves every table as it was; a recorded one adds its
      user message, gate row, audit row and state change together, to one session, and touches no other. */
  lemma TurnsAreAtomic(base: Db, db: Db, sid: Sid, seen: Row, step: Step, turn: Turn)
    requires sid in db
    ensures var (db', r) := Land(base, db, sid, seen, step, turn);
            && (r.Err? || r.value.replayed ==> db' == base)
            && (r.Ok? && !r.value.replayed ==>
                  && db'.Keys == db.Keys && (forall x :: x in db && x != sid ==> db'[x] == db[x])
                  && TurnAdded(db[sid], db'[sid], seen, turn)
                  && ToldRecorded(r.value, sid, seen, turn))
            && (r.Ok? && r.value.replayed ==> ToldReplayed(r.value, sid, seen))
    ensures Land(base, db, sid, seen, step, turn).1 == Err(StaleTurn) ==> seen.version != db[sid].row.version
    ensures Land(base, db, sid, seen, step, turn).1.Ok? <==>
              || IsReplay(db[sid], turn.turnId)
              || (seen.status == Active && step == seen.step && seen.version == db[sid].row.version)
  {
    if Records(db[sid], seen, step, turn) {
      RecordsWhen(base, db, sid, seen, step, turn);
      RecordTurnAdds(db[sid], seen, turn);
      RecordedTells(sid, seen, turn);
    } else {
      RefusesWhen(base, db, sid, seen, step, turn);
    }
  }

  predicate Records(s: Session, seen: Row, step: Step, turn: Turn) {
    !IsReplay(s, turn.turnId) && seen.status == Active && step == seen.step && seen.version == s.row.version
  }

  lemma RecordsWhen(base: Db, db: Db, sid: Sid, seen: Row, step: Step, turn: Turn)
    requires sid in db && Records(db[sid], seen, step, turn)
    ensures Land(base, db, sid, seen, step, turn)
         == (db[sid := RecordTurn(db[sid], seen, NextSeq(db[sid]), turn)], Ok(Recorded(sid, seen, turn)))
  {
  }

  lemma RefusesWhen(base: Db, db: Db, sid: Sid, seen: Row, step: Step, turn: Turn)
    requires sid in db && !Records(db[sid], seen, step, turn)
    ensures var (db', r) := Land(base, db, sid, seen, step, turn);
            && db' == base
            && (if IsReplay(db[sid], turn.turnId) then r == Ok(Replay(sid, seen)) else r.Err?)
            && (r == Err(StaleTurn) ==> seen.version != db[sid].row.version)
  {
  }

  /** The session that a server turn is recorded in, as it was before, and its id. */
  ghost function SessionFor(db: Db, req: TurnReq, now: int): Session {
    match GetActive(db, req.user, req.problem)
    case Some(sid) => db[sid]
    case None => FreshFor(req, now)
  }

  ghost function SidFor(db: Db, minted: Sid, req: TurnReq): Sid {
    match GetActive(db, req.user, req.problem)
    case Some(sid) => sid
    case None => minted
  }

  /** And its row as the ORM session holds it: the cached one, if it is the one that was cached. */
  ghost function RowSeen(db: Db, cached: Option<(Sid, Row)>, req: TurnReq, now: int): Row {
    match GetActive(db, req.user, req.problem)
    case Some(sid) => if cached.Some? && cached.value.0 == sid then cached.value.1 else db[sid].row
    case None => MadeFor(req, now)
  }

  /** The row that a first turn makes for itself. */
  function MadeFor(req: TurnReq, now: int): Row {
    Row(user := req.user, problem := req.problem, origin := req.origin, track := TrackOf(req.step), status := Active,
        step := StepsFor(TrackOf(req.step))[0], stepIndex := 0, attempts := 0, hintLevel := 0, model := None, byok := false,
        rubric := req.rubric, version := 0, lastTurn := None, expiresAt := now + TTL)
  }

  /** The server path: an answer is replayed exactly when the active session of this user and problem
      already holds its turn id, and recorded exactly when the row that is held is active, at the
      submitted step and of the current version. What is recorded is computed from that row. Refusals
      and replays roll the lazily created row back as well. */
  lemma ServerTurnsAreAtomic(db: Db, cached: Option<(Sid, Row)>, minted: Sid, req: TurnReq,
                             verdict: GateVerdict, outcome: GateOutcome, now: int)
    requires minted !in db
    ensures var (db', r) := ServerTurn(db, cached, minted, req, verdict, outcome, now);
            var s, seen, sid := SessionFor(db, req, now), RowSeen(db, cached, req, now), SidFor(db, minted, req);
            var turn := Turn(answer := req.answer, turnId := req.turnId, judge := Llm, outcome := outcome,
                             verdict := verdict, reply := None, now := now);
            && (GetActive(db, req.user, req.problem).None? ==> s.row == MadeFor(req, now) && s.messages == map[] && s.calls == [])
            && (r.Err? || r.value.replayed ==> db' == db)
            && (r.Ok? && r.value.replayed <==> IsReplay(s, req.turnId))
            && (r.Ok? && r.value.replayed ==> ToldReplayed(r.value, sid, seen))
            && (r.Ok? && !r.value.replayed <==> Records(s, seen, req.step, turn))
            && (r.Ok? && !r.value.replayed ==> ToldRecorded(r.value, sid, seen, turn) && OneTurnAdded(db, db', sid, s, seen, turn))
  {
    var s, seen, sid := SessionFor(db, req, now), RowSeen(db, cached, req, now), SidFor(db, minted, req);
    LandAddsOneTurn(db, if sid in db then db else db[sid := s], sid, seen, req.step, ServerTurnOf(req, verdict, outcome, now), s);
  }

  /** The store after a turn: the same but for one session, which was `s` (or is new, made as `s`), plus
      this turn, computed from the row that was seen. */
  ghost predicate OneTurnAdded(db: Db, db': Db, sid: Sid, s: Session, seen: Row, turn: Turn) {
    && db'.Keys == db.Keys + {sid}
    && (forall x :: x in db && x != sid ==> db'[x] == db[x])
    && TurnAdded(s, db'[sid], seen, turn)
  }

  lemma LandAddsOneTurn(base: Db, db: Db, sid: Sid, seen: Row, step: Step, turn: Turn, s: Session)
    requires (db == base && sid in base && base[sid] == s) || (sid !in base && db == base[sid := s])
    ensures var (db', r) := Land(base, db, sid, seen, step, turn);
            && (r.Err? || r.value.replayed ==> db' == base)
            && (r.Ok? && r.value.replayed <==> IsReplay(s, turn.turnId))
            && (r.Ok? && r.value.replayed ==> ToldReplayed(r.value, sid, seen))
            && (r.Ok? && !r.value.replayed <==> Records(s, seen, step, turn))
            && (r.Ok? && !r.value.replayed ==> ToldRecorded(r.value, sid, seen, turn) && OneTurnAdded(base, db', sid, s, seen, turn))
  {
    if Records(s, seen, step, turn) {
      RecordsWhen(base, db, sid, seen, step, turn);
      RecordAddsOne(base, db, sid, seen, turn, s);
      RecordedTells(sid, seen, turn);
    } else {
      RefusesWhen(base, db, sid, seen, step, turn);
    }
  }

  lemma RecordAddsOne(base: Db, db: Db, sid: Sid, seen: Row, turn: Turn, s: Session)
    requires (db == base && sid in base && base[sid] == s) || (sid !in base && db == base[sid := s])
    requires seen.version == s.row.version
    ensures OneTurnAdded(base, db[sid := RecordTurn(s, seen, NextSeq(s), turn)], sid, s, seen, turn)
  {
    RecordTurnAdds(s, seen, turn);
  }

  // ---------------------------------------------------------------- at most once

  lemma RecordedTurnIsMarked(s: Session, seen: Row, turn: Turn)
    requires turn.turnId.Some?
    ensures HasTurn(RecordTurn(s, seen, NextSeq(s), turn), turn.turnId.value)
  {
    var t := RecordTurn(s, seen, NextSeq(s), turn);
    assert NextSeq(s) in t.messages && t.messages[NextSeq(s)].turnId == turn.turnId;
  }

  /** In the browser path any later post that carries a recorded turn id is replayed and writes
      nothing, whatever else it says, and also when that turn completed the session. */
  lemma ByokRepostReplays(db: Db, sid: Sid, step: Step, turn: Turn, step': Step, turn': Turn)
    requires sid in db && turn.turnId.Some? && turn'.turnId == turn.turnId
    requires ByokTurn(db, sid, step, turn).1.Ok?
    ensures var db' := ByokTurn(db, sid, step, turn).0;
            && sid in db'
            && ByokTurn(db', sid, step', turn').0 == db'
            && ByokTurn(db', sid, step', turn').1 == Ok(Replay(sid, db'[sid].row))
  {
    RecordedTurnIsMarked(db[sid], db[sid].row, turn);
  }

  lemma OthersAreInactive(db: Db, sid: Sid, s: Session)
    requires OneActive(db)
    requires if sid in db then IsActiveFor(db[sid].row, s.row.user, s.row.problem) else !HasActive(db, s.row.user, s.row.problem)
    ensures forall x :: x in db && x != sid ==> !IsActiveFor(db[x].row, s.row.user, s.row.problem)
  {
    if sid in db {
      assert forall x :: x in db && x != sid ==> !BothActive(db[x].row, db[sid].row);
    }
  }

  lemma OneActiveAfter(db: Db, sid: Sid, s: Session)
    requires OneActive(db)
    requires if sid in db then IsActiveFor(db[sid].row, s.row.user, s.row.problem) else !HasActive(db, s.row.user, s.row.problem)
    ensures s.row.status == Active ==> GetActive(db[sid := s], s.row.user, s.row.problem) == Some(sid)
    ensures s.row.status == Completed ==> GetActive(db[sid := s], s.row.user, s.row.problem) == None
  {
    var db' := db[sid := s];
    OthersAreInactive(db, sid, s);
    assert forall x :: x in db' && x != sid ==> !IsActiveFor(db'[x].row, s.row.user, s.row.problem);
    if s.row.status == Active { assert IsActiveFor(db'[sid].row, s.row.user, s.row.problem); }
  }

  lemma OnlyTheLastStepCompletes(state: SessionState, v: GateVerdict)
    requires state.status == Active && ApplyVerdict(state, v).state.status == Completed
    ensures state.step != FirstStep(TrackOf(state.step))
  {
    LaddersPartition(state.step);
    LadderPosition(TrackOf(state.step), 0);
  }

  /** A recorded server turn, spelled out. */
  lemma ServerTurnRecords(db: Db, cached: Option<(Sid, Row)>, minted: Sid, req: TurnReq,
                          verdict: GateVerdict, outcome: GateOutcome, now: int)
    requires minted !in db
    requires var r := ServerTurn(db, cached, minted, req, verdict, outcome, now).1; r.Ok? && !r.value.replayed
    ensures var s, seen, sid := SessionFor(db, req, now), RowSeen(db, cached, req, now), SidFor(db, minted, req);
            var turn := ServerTurnOf(req, verdict, outcome, now);
            && ServerTurn(db, cached, minted, req, verdict, outcome, now)
               == (db[sid := RecordTurn(s, seen, NextSeq(s), turn)], Ok(Recorded(sid, seen, turn)))
            && seen.status == Active && seen.step == req.step && seen.version == s.row.version
            && s.row.status == Active && s.row.user == req.user && s.row.problem == req.problem
  {
    var s, seen, sid := SessionFor(db, req, now), RowSeen(db, cached, req, now), SidFor(db, minted, req);
    var turn := ServerTurnOf(req, verdict, outcome, now);
    ServerTurnsAreAtomic(db, cached, minted, req, verdict, outcome, now);
    if GetActive(db, req.user, req.problem).None? {
      RecordsWhen(db, db[minted := s], minted, seen, req.step, turn);
      assert db[minted := s][minted := RecordTurn(s, seen, NextSeq(s), turn)] == db[minted := RecordTurn(s, seen, NextSeq(s), turn)];
    } else {
      RecordsWhen(db, db, sid, seen, req.step, turn);
    }
  }

  lemma RecordedRow(s: Session, seen: Row, turn: Turn, sid: Sid)
    ensures var t := RecordTurn(s, seen, NextSeq(s), turn); var r := Recorded(sid, seen, turn);
            && t.row.status == r.row.status && t.row.step == r.row.step
            && t.row.user == s.row.user && t.row.problem == s.row.problem
  {
  }

  /** Where a turn that has just been recorded will be looked for. */
  lemma RecordedServerTurn(db: Db, cached: Option<(Sid, Row)>, minted: Sid, req: TurnReq,
                           verdict: GateVerdict, outcome: GateOutcome, now: int)
    requires OneActive(db) && minted !in db
    requires var r := ServerTurn(db, cached, minted, req, verdict, outcome, now).1; r.Ok? && !r.value.replayed
    ensures var (db', r) := ServerTurn(db, cached, minted, req, verdict, outcome, now);
            && r.value.sid in db'
            && (req.turnId.Some? ==> HasTurn(db'[r.value.sid], req.turnId.value))
            && (r.value.row.status == Active ==> GetActive(db', req.user, req.problem) == Some(r.value.sid))
            && (r.value.row.status == Completed ==> GetActive(db', req.user, req.problem) == None)
            && (r.value.row.status == Completed ==> req.step != FirstStep(TrackOf(req.step)))
  {
    ServerTurnRecords(db, cached, minted, req, verdict, outcome, now);
    var turn := ServerTurnOf(req, verdict, outcome, now);
    var s, seen, sid := SessionFor(db, req, now), RowSeen(db, cached, req, now), SidFor(db, minted, req);
    if req.turnId.Some? { RecordedTurnIsMarked(s, seen, turn); }
    RecordedRow(s, seen, turn, sid);
    OneActiveAfter(db, sid, RecordTurn(s, seen, NextSeq(s), turn));
    if Recorded(sid, seen, turn).row.status == Completed { OnlyTheLastStepCompletes(StateOf(seen), verdict); }
  }

  lemma RepostOnActive(db: Db, cached: Option<(Sid, Row)>, sid: Sid, minted: Sid, req: TurnReq,
                       verdict: GateVerdict, outcome: GateOutcome, now: int)
    requires GetActive(db, req.user, req.problem) == Some(sid) && IsReplay(db[sid], req.turnId)
    ensures ServerTurn(db, cached, minted, req, verdict, outcome, now) == (db, Ok(Replay(sid, Seen(cached, sid, db[sid].row))))
  {
  }

  lemma PostOnNone(db: Db, cached: Option<(Sid, Row)>, minted: Sid, req: TurnReq,
                   verdict: GateVerdict, outcome: GateOutcome, now: int)
    requires GetActive(db, req.user, req.problem) == None && req.step != FirstStep(TrackOf(req.step))
    ensures ServerTurn(db, cached, minted, req, verdict, outcome, now) == (db, Err(StepMismatch))
  {
  }

  /** Posting the same answer to the server again, straight after it was recorded, never writes anything,
      whatever row either post had cached. It is answered by a replay if and only if the turn did not
      complete the session; after completion it is refused as a step mismatch, since no active session
      remains to find it in. */
  lemma ServerRepostWritesNothing(db: Db, cached: Option<(Sid, Row)>, minted: Sid, req: TurnReq,
                                  verdict: GateVerdict, outcome: GateOutcome, now: int,
                                  cached': Option<(Sid, Row)>, minted': Sid, verdict': GateVerdict, outcome': GateOutcome, now': int)
    requires OneActive(db) && minted !in db && req.turnId.Some?
    requires var r := ServerTurn(db, cached, minted, req, verdict, outcome, now).1; r.Ok? && !r.value.replayed
    ensures var (db1, first) := ServerTurn(db, cached, minted, req, verdict, outcome, now);
            var (db2, second) := ServerTurn(db1, cached', minted', req, verdict', outcome', now');
            && db2 == db1
            && (second.Ok? && second.value.replayed <==> first.value.row.status == Active)
            && (first.value.row.status == Completed ==> second == Err(StepMismatch))
  {
    RecordedServerTurn(db, cached, minted, req, verdict, outcome, now);
    var (db1, first) := ServerTurn(db, cached, minted, req, verdict, outcome, now);
    if first.value.row.status == Active {
      RepostOnActive(db1, cached', first.value.sid, minted', req, verdict', outcome', now');
    } else {
      PostOnNone(db1, cached', minted', req, verdict', outcome', now');
    }
  }

  // ---------------------------------------------------------------- the gate and the ladder

  lemma RecordedFollowsVerdict(db: Db, cached: Option<(Sid, Row)>, minted: Sid, req: TurnReq,
                               verdict: GateVerdict, outcome: GateOutcome, now: int)
    requires minted !in db
    requires var r := ServerTurn(db, cached, minted, req, verdict, outcome, now).1; r.Ok? && !r.value.replayed
    ensures var (db', r) := ServerTurn(db, cached, minted, req, verdict, outcome, now);
            && (r.value.advanced <==> verdict.verdict == Pass)
            && (!r.value.advanced ==> r.value.row.step == req.step && r.value.row.status == Active)
            && r.value.sid in db'
            && db'[r.value.sid].row.step == r.value.row.step && db'[r.value.sid].row.status == r.value.row.status
  {
    ServerTurnRecords(db, cached, minted, req, verdict, outcome, now);
    var seen := RowSeen(db, cached, req, now);
    RecordedRow(SessionFor(db, req, now), seen, ServerTurnOf(req, verdict, outcome, now), SidFor(db, minted, req));
    OnlyAPassAdvances(StateOf(seen), verdict);
  }

  /** The gate model returned an object whose verdict is the string "pass" and all of whose keys the
      schema knows. */
  predicate RawPass(answer: Option<Raw>) {
    answer.Some? && answer.value.Keys <= FIELDS && FVerdict in answer.value && answer.value[FVerdict] == JStr("pass")
  }

  /** No server turn advances a session without a raw pass, whatever row it had cached; a turn that does
      not advance leaves the step and the status alone. */
  lemma ServerAdvancesOnlyOnRawPass(lenient: bool, answer: Option<Raw>, db: Db, cached: Option<(Sid, Row)>, minted: Sid,
                                    req: TurnReq, now: int)
    requires minted !in db && Judgement(lenient, answer).Evaluated?
    requires var e := Judgement(lenient, answer); var r := ServerTurn(db, cached, minted, req, e.verdict, e.outcome, now).1;
             r.Ok? && !r.value.replayed
    ensures var e := Judgement(lenient, answer);
            var (db', r) := ServerTurn(db, cached, minted, req, e.verdict, e.outcome, now);
            && (r.value.advanced ==> RawPass(answer))
            && (!r.value.advanced ==> r.value.row.step == req.step && r.value.row.status == Active)
            && db'[r.value.sid].row.step == r.value.row.step && db'[r.value.sid].row.status == r.value.row.status
  {
    var e := Judgement(lenient, answer);
    RecordedFollowsVerdict(db, cached, minted, req, e.verdict, e.outcome, now);
    if e.verdict.verdict == Pass { GateNeverGrants(lenient, answer); }
  }

  // ---------------------------------------------------------------- starting over

  /** The row of a session begun by the caller's choice of model. */
  function BegunAs(user: string, problem: string, origin: string, track: Track, rubric: string, entry: Entry, now: int): Row {
    Row(user := user, problem := problem, origin := origin, track := track, status := Active, step := StepsFor(track)[0],
        stepIndex := 0, attempts := 0, hintLevel := 0, model := Some(entry.key), byok := entry.provider != Ollama,
        rubric := rubric, version := 0, lastTurn := None, expiresAt := now + TTL)
  }

  /** Creating a session adds one, as chosen and empty, and changes no other. */
  lemma CreateBegins(db: Db, minted: Sid, user: string, problem: string, origin: string, track: Track,
                     rubric: string, entry: Entry, now: int)
    requires minted !in db
    ensures var db' := CreateSession(db, minted, user, problem, origin, track, rubric, entry, now);
            && db'.Keys == db.Keys + {minted} && (forall sid :: sid in db ==> db'[sid] == db[sid])
            && db'[minted].row == BegunAs(user, problem, origin, track, rubric, entry, now)
            && db'[minted].messages == map[] && db'[minted].gates == map[] && db'[minted].calls == []
  {
  }

  /** Reset leaves exactly one session for the row's user and problem: a fresh one of the same origin and on
      the same ladder, with the carried model. Every other session stays. */
  lemma ResetStartsOver(db: Db, row: Row, minted: Sid, rubric: string, tier: Tier, hasLocal: bool, now: int)
    requires minted !in db
    ensures var db' := ResetOf(db, row, minted, rubric, tier, hasLocal, now); var entry := CarriedModel(row.model, tier, hasLocal);
            && minted in db'
            && (forall sid :: sid in db' && sid != minted <==>
                  sid in db && !(db[sid].row.user == row.user && db[sid].row.problem == row.problem))
            && (forall sid :: sid in db' && sid != minted ==> db'[sid] == db[sid])
            && SessionOk(OrderedRun, db'[minted]) && db'[minted].calls == [] && db'[minted].messages == map[]
            && db'[minted].row == BegunAs(row.user, row.problem, row.origin, row.track, rubric, entry, now)
            && ByKey(db'[minted].row.model) == Some(entry) && tier in entry.allowedTiers
  {
    var entry := CarriedModel(row.model, tier, hasLocal);
    ChoicesAreCatalogEntries(row.model, tier, hasLocal);
    NewSessionOk(row.user, row.problem, row.origin, row.track, rubric, Some(entry.key), TransportOf(entry), now);
  }
}
