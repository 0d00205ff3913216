/** tutor/persistence: the tables, and the repository's statements over them.

    The rows that carry a session's id as a foreign key (messages, gate, gate_call) are grouped under
    that id, so ON DELETE CASCADE is the removal of one entry. `trail`, `switches` and `bumps` are no
    columns: they remember, for the proofs, the whole verdicts behind the gate_call rows, how often
    the coach model was switched, and how often a reflected row raised the version. */
module Store {
  import opened Wrappers
  import opened Steps
  import opened Verdicts
  import opened Fsm
  import opened Gate
  import opened Catalog

  type Sid = nat
  type TurnId = nat

  const TTL: nat := 48 * 3600

  datatype Row = Row(
    user: string,
    problem: string,
    origin: string,
    track: Track,
    status: SessionStatus,
    step: Step,
    stepIndex: nat,
    attempts: nat,
    hintLevel: nat,
    model: Option<ModelKey>,
    byok: bool,
    rubric: string,
    version: nat,
    lastTurn: Option<TurnId>,
    expiresAt: int)

  datatype Role = User | Coach

  datatype Message = Message(role: Role, step: Step, content: string, turnId: Option<TurnId>, model: Option<ModelKey>)

  /** Who judged: the server's gate (judge_kind 'llm') or the learner's browser ('byok'). */
  datatype Judge = Llm | Client

  datatype GateRow = GateRow(verdict: Verdict, score: int, attempts: nat, missing: seq<string>, judge: Judge,
                             createdAt: int, updatedAt: int)

  datatype Call = Call(turnId: Option<TurnId>, step: Step, answerSeq: nat, rubric: string, judge: Judge,
                       outcome: GateOutcome, verdict: Verdict, score: int, missing: seq<string>, hint: string)

  datatype Session = Session(
    row: Row,
    messages: map<nat, Message>,
    gates: map<Step, GateRow>,
    calls: seq<Call>,
    trail: seq<GateVerdict>,
    switches: nat,
    bumps: nat)

  type Db = map<Sid, Session>

  // ---------------------------------------------------------------- queries

  predicate IsActiveFor(row: Row, user: string, problem: string) {
    row.user == user && row.problem == problem && row.status == Active
  }

  predicate BothActive(a: Row, b: Row) {
    IsActiveFor(a, b.user, b.problem) && b.status == Active
  }

  /** The partial unique index one_active_session. */
  ghost predicate OneActive(db: Db) {
    forall a, b :: (a in db && b in db && BothActive(db[a].row, db[b].row)) ==> a == b
  }

  ghost predicate HasActive(db: Db, user: string, problem: string) {
    exists s :: s in db && IsActiveFor(db[s].row, user, problem)
  }

  ghost function GetActive(db: Db, user: string, problem: string): (found: Option<Sid>)
    ensures found.Some? <==> HasActive(db, user, problem)
    ensures found.Some? ==> found.value in db && IsActiveFor(db[found.value].row, user, problem)
  {
    if HasActive(db, user, problem) then
      var s :| s in db && IsActiveFor(db[s].row, user, problem);
      Some(s)
    else None
  }

  ghost function MaxSeq(keys: set<nat>): (m: nat)
    ensures forall k :: k in keys ==> k <= m
    ensures keys == {} ==> m == 0
    ensures keys != {} ==> m in keys
  {
    if keys == {} then 0
    else
      var k :| k in keys;
      var rest := MaxSeq(keys - {k});
      assert keys == keys - {k} + {k};
      if k > rest then k else rest
  }

  ghost function NextSeq(s: Session): nat {
    MaxSeq(s.messages.Keys) + 1
  }

  predicate HasTurn(s: Session, turn: TurnId) {
    exists k | k in s.messages :: s.messages[k].turnId == Some(turn)
  }

  function SeqsOf(messages: map<nat, Message>, role: Role): set<nat> {
    set k | k in messages && messages[k].role == role
  }

  // ---------------------------------------------------------------- statements on one session

  function NewSession(user: string, problem: string, origin: string, track: Track, rubric: string,
                      model: Option<ModelKey>, byok: bool, now: int): Session
  {
    Session(
      Row(user, problem, origin, track, Active, FirstStep(track), 0, 0, 0, model, byok, rubric, 0, None, now + TTL),
      map[], map[], [], [], 0, 0)
  }

  function StateOf(row: Row): SessionState {
    SessionState(row.step, row.attempts, row.hintLevel, row.status, map[])
  }

  /** The primary key (session_id, seq) and the unique index message_turn_id. */
  predicate MayInsert(s: Session, at: nat, m: Message) {
    at !in s.messages && (m.turnId.Some? ==> !HasTurn(s, m.turnId.value))
  }

  function InsertMessage(s: Session, at: nat, m: Message): Session {
    s.(messages := s.messages[at := m])
  }

  /** INSERT … ON CONFLICT DO UPDATE: judge_kind and created_at are not among the updated columns. */
  function UpsertGate(s: Session, step: Step, v: GateVerdict, attempts: nat, judge: Judge, now: int): Session {
    s.(gates := s.gates[step :=
      if step in s.gates then
        s.gates[step].(verdict := v.verdict, score := v.score, attempts := attempts, missing := v.missing, updatedAt := now)
      else GateRow(v.verdict, v.score, attempts, v.missing, judge, now, now)])
  }

  function AddGateCall(s: Session, call: Call, v: GateVerdict): Session {
    s.(calls := s.calls + [call], trail := s.trail + [v])
  }

  function SaveState(s: Session, expected: nat, state: SessionState, turn: Option<TurnId>, now: int): Session {
    s.(row := s.row.(
      status := state.status, step := state.step, stepIndex := StepIndex(state.step), attempts := state.attempts,
      hintLevel := state.hintLevel, lastTurn := turn, version := expected + 1, expiresAt := now + TTL))
  }

  function SetCoachModel(s: Session, expected: nat, entry: Entry, now: int): Session {
    s.(row := s.row.(model := Some(entry.key), byok := TransportOf(entry), version := expected + 1, expiresAt := now + TTL),
       switches := s.switches + 1)
  }

  /** The flush of a row whose version was assigned in memory: UPDATE … WHERE id, and nothing else. */
  function Followed(s: Session, version: nat): Session {
    s.(row := s.row.(version := version), bumps := s.bumps + if version > s.row.version then 1 else 0)
  }

  function Without(db: Db, doomed: set<Sid>): Db {
    map s | s in db && s !in doomed :: db[s]
  }

  function RowsFor(db: Db, user: string, problem: string): set<Sid> {
    set s | s in db && db[s].row.user == user && db[s].row.problem == problem
  }

  function RowsOf(db: Db, user: string): set<Sid> {
    set s | s in db && db[s].row.user == user
  }

  function ExpiredRows(db: Db, now: int): set<Sid> {
    set s | s in db && db[s].row.expiresAt < now
  }

  // ---------------------------------------------------------------- the database of one transaction

  /** `committed` is what other transactions see; `working` is what this one sees. */
  class Database {
    var committed: Db
    var working: Db

    constructor ()
      ensures committed == working == map[]
    {
      committed, working := map[], map[];
    }

    method Commit()
      modifies this
      ensures committed == working == old(working)
    {
      committed := working;
    }

    method Rollback()
      modifies this
      ensures committed == working == old(committed)
    {
      working := committed;
    }

    method GetActiveLocked(user: string, problem: string) returns (found: Option<Sid>)
      requires OneActive(working)
      ensures found == GetActive(working, user, problem)
    {
      var rest := working.Keys;
      while rest != {}
        invariant rest <= working.Keys
        invariant forall s :: s in working && s !in rest ==> !IsActiveFor(working[s].row, user, problem)
        decreases rest
      {
        var s :| s in rest;
        if IsActiveFor(working[s].row, user, problem) {
          return Some(s);
        }
        rest := rest - {s};
      }
      found := None;
    }

    method GetForUserLocked(sid: Sid, user: string) returns (found: Option<Row>)
      ensures found == if sid in working && working[sid].row.user == user then Some(working[sid].row) else None
    {
      found := if sid in working && working[sid].row.user == user then Some(working[sid].row) else None;
    }

    /** False is the unique index refusing a second active session. */
    method Create(minted: Sid, user: string, problem: string, origin: string, track: Track, rubric: string,
                  model: Option<ModelKey>, byok: bool, now: int) returns (ok: bool)
      requires OneActive(working) && minted !in working
      modifies this`working
      ensures ok <==> !HasActive(old(working), user, problem)
      ensures working == if ok then old(working)[minted := NewSession(user, problem, origin, track, rubric, model, byok, now)]
                               else old(working)
      ensures OneActive(working)
      ensures ok ==> minted in working && working[minted].messages == map[] && working[minted].gates == map[] && working[minted].calls == []
      ensures ok ==> var row := working[minted].row;
                && row.user == user && row.problem == problem && row.origin == origin && row.track == track && row.rubric == rubric
                && row.model == model && row.byok == byok && row.status == Active && row.step == StepsFor(track)[0]
                && row.stepIndex == row.attempts == row.hintLevel == row.version == 0
                && row.lastTurn == None && row.expiresAt == now + TTL
    {
      var clash := GetActiveLocked(user, problem);
      ok := clash.None?;
      if ok {
        working := working[minted := NewSession(user, problem, origin, track, rubric, model, byok, now)];
      }
    }

    method NextSeqOf(sid: Sid) returns (n: nat)
      requires sid in working
      ensures n == NextSeq(working[sid])
    {
      var keys := working[sid].messages.Keys;
      var rest, top := keys, 0;
      while rest != {}
        invariant rest <= keys
        invariant forall k :: k in keys && k !in rest ==> k <= top
        invariant top in keys || top == 0
        decreases rest
      {
        var k :| k in rest;
        if k > top {
          top := k;
        }
        rest := rest - {k};
      }
      n := top + 1;
    }

    method FindByTurn(sid: Sid, turn: TurnId) returns (found: bool)
      requires sid in working
      ensures found == HasTurn(working[sid], turn)
    {
      found := HasTurn(working[sid], turn);
    }

    /** None is an integrity error; with no other transaction in between, a turn id not seen before
        always goes in at the next position. */
    method AppendMessage(sid: Sid, m: Message) returns (at: Option<nat>)
      requires sid in working
      modifies this`working
      ensures at == if m.turnId.Some? && HasTurn(old(working)[sid], m.turnId.value) then None
                     else Some(NextSeq(old(working)[sid]))
      ensures working == if at.None? then old(working)
                         else old(working)[sid := InsertMessage(old(working)[sid], at.value, m)]
    {
      var n := NextSeqOf(sid);
      assert n !in working[sid].messages;
      if MayInsert(working[sid], n, m) {
        working := working[sid := InsertMessage(working[sid], n, m)];
        at := Some(n);
      } else {
        at := None;
      }
    }

    /** The row that the step already had keeps its judge and its creation time. */
    method Upsert(sid: Sid, step: Step, v: GateVerdict, attempts: nat, judge: Judge, now: int)
      requires sid in working
      modifies this`working
      ensures working == old(working)[sid := UpsertGate(old(working)[sid], step, v, attempts, judge, now)]
      ensures forall other :: other in old(working)[sid].gates && other != step
                ==> other in working[sid].gates && working[sid].gates[other] == old(working)[sid].gates[other]
      ensures var first := if step in old(working)[sid].gates then old(working)[sid].gates[step]
                           else GateRow(v.verdict, v.score, attempts, v.missing, judge, now, now);
              step in working[sid].gates
              && working[sid].gates[step] == GateRow(v.verdict, v.score, attempts, v.missing, first.judge, first.createdAt, now)
    {
      working := working[sid := UpsertGate(working[sid], step, v, attempts, judge, now)];
    }

    method AddCall(sid: Sid, call: Call, v: GateVerdict)
      requires sid in working
      modifies this`working
      ensures working == old(working)[sid := AddGateCall(old(working)[sid], call, v)]
    {
      working := working[sid := AddGateCall(working[sid], call, v)];
    }

    /** UPDATE … WHERE version = expected; false when no row matched. */
    method SaveStateOf(sid: Sid, expected: nat, state: SessionState, turn: Option<TurnId>, now: int) returns (ok: bool)
      modifies this`working
      ensures ok <==> sid in old(working) && old(working)[sid].row.version == expected
      ensures working == if ok then old(working)[sid := SaveState(old(working)[sid], expected, state, turn, now)]
                               else old(working)
      ensures ok ==> var before, after := old(working)[sid], working[sid];
                && after.row.version == before.row.version + 1 && StateOf(after.row) == state.(scores := map[])
                && after.row.stepIndex == StepIndex(state.step)
                && after.row.lastTurn == turn && after.row.expiresAt == now + TTL
                && after.row.model == before.row.model && after.row.byok == before.row.byok
                && after.row.user == before.row.user && after.row.problem == before.row.problem && after.row.origin == before.row.origin
                && after.row.track == before.row.track && after.row.rubric == before.row.rubric
                && after.(row := before.row) == before
    {
      ok := sid in working && working[sid].row.version == expected;
      if ok {
        working := working[sid := SaveState(working[sid], expected, state, turn, now)];
      }
    }

    method SetCoachModelOf(sid: Sid, expected: nat, entry: Entry, now: int) returns (ok: bool)
      modifies this`working
      ensures ok <==> sid in old(working) && old(working)[sid].row.version == expected
      ensures working == if ok then old(working)[sid := SetCoachModel(old(working)[sid], expected, entry, now)]
                               else old(working)
      ensures ok ==> var before, after := old(working)[sid], working[sid];
                && after.row.version == before.row.version + 1 && StateOf(after.row) == StateOf(before.row)
                && after.row.model == Some(entry.key) && (after.row.byok <==> entry.provider != Ollama)
                && (ByKey(Some(entry.key)) == Some(entry) ==> (after.row.byok <==> NamesCloudModel(after.row.model)))
                && after.row.expiresAt == now + TTL && after.row.lastTurn == before.row.lastTurn
                && after.row.user == before.row.user && after.row.problem == before.row.problem && after.row.origin == before.row.origin
                && after.row.track == before.row.track && after.row.rubric == before.row.rubric
                && after.messages == before.messages && after.gates == before.gates && after.calls == before.calls
    {
      ok := sid in working && working[sid].row.version == expected;
      if ok {
        working := working[sid := SetCoachModel(working[sid], expected, entry, now)];
      }
    }

    /** The unit of work's UPDATE … WHERE id: no version is compared. False is the error that the row is
        gone. */
    method FlushVersion(sid: Sid, version: nat) returns (ok: bool)
      modifies this`working
      ensures ok <==> sid in old(working)
      ensures working == if ok then old(working)[sid := Followed(old(working)[sid], version)] else old(working)
      ensures ok ==> var before, after := old(working)[sid], working[sid];
                && after.row == before.row.(version := version)
                && after.messages == before.messages && after.gates == before.gates && after.calls == before.calls
      ensures forall other :: other in old(working) && other != sid ==> other in working && working[other] == old(working)[other]
    {
      ok := sid in working;
      if ok {
        working := working[sid := Followed(working[sid], version)];
      }
    }

    method Delete(doomed: set<Sid>) returns (count: nat)
      requires doomed <= working.Keys
      modifies this`working
      ensures working == Without(old(working), doomed)
      ensures working.Keys == old(working).Keys - doomed && forall sid :: sid in working ==> working[sid] == old(working)[sid]
      ensures count == |doomed|
    {
      working := Without(working, doomed);
      count := |doomed|;
    }
  }
}
