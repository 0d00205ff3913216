/** What a committed session satisfies. The lasting laws speak of the transcript, of the transport and of
    how the step was earned; no write breaks them. The exact laws say that the row is the fold of the
    audit log and the gate table its summary; they hold as long as no turn overwrites a state it has not
    seen. That the version counts the writes, and so orders them, holds as long as no reflected row
    lowers it. */
module SessionLaws {
  import opened Wrappers
  import opened Steps
  import opened Verdicts
  import opened Fsm
  import opened Catalog
  import opened Store

  // ---------------------------------------------------------------- the laws

  /** Sequence numbers are exactly 1..n, and a turn id marks at most one message, an answer. */
  ghost predicate Transcript(s: Session) {
    && (forall k :: k in s.messages <==> 1 <= k <= |s.messages|)
    && (forall k :: k in s.messages && s.messages[k].role == Coach ==> s.messages[k].turnId == None)
    && (forall k, l :: (k in s.messages && l in s.messages && SameTurn(s.messages[k], s.messages[l])) ==> k == l)
  }

  predicate SameTurn(a: Message, b: Message) {
    a.turnId.Some? && a.turnId == b.turnId
  }

  ghost function Replayed(s: Session): SessionState {
    Fold(s.row.track, s.trail)
  }

  ghost predicate CallRecords(c: Call, v: GateVerdict) {
    c.verdict == v.verdict && c.score == v.score && c.missing == v.missing && c.hint == v.hint
  }

  ghost predicate CallsRecorded(s: Session) {
    && |s.calls| == |s.trail|
    && (forall i :: 0 <= i < |s.calls| ==> CallRecords(s.calls[i], s.trail[i]))
  }

  /** The row is the fold of the transition function over the audited verdicts. */
  ghost predicate RowFoldsLog(s: Session) {
    && CallsRecorded(s)
    && StateOf(s.row) == Reloaded(Replayed(s))
    && s.row.stepIndex == StepIndex(s.row.step)
  }

  /** The version counts the turns, the model switches and the reflected rows that raised it. */
  predicate VersionCounts(s: Session) {
    s.row.version == |s.calls| + s.switches + s.bumps
  }

  /** Each audited verdict was given at the step the log had reached, and never after completion. */
  ghost predicate CallsClimb(s: Session) {
    && |s.calls| == |s.trail|
    && forall i :: 0 <= i < |s.calls| ==> CallInPlace(s, i)
  }

  ghost predicate CallInPlace(s: Session, i: nat)
    requires i < |s.calls| == |s.trail|
  {
    Fold(s.row.track, s.trail[..i]).status == Active && s.calls[i].step == Fold(s.row.track, s.trail[..i]).step
  }

  ghost predicate Answers(s: Session, c: Call) {
    && c.answerSeq in s.messages
    && s.messages[c.answerSeq].role == User
    && s.messages[c.answerSeq].step == c.step
    && s.messages[c.answerSeq].turnId == c.turnId
  }

  /** Audit rows and user messages are in bijection through answer_seq, in the same order. */
  ghost predicate CallsMatchAnswers(s: Session) {
    && (forall i, j :: 0 <= i < j < |s.calls| ==> s.calls[i].answerSeq < s.calls[j].answerSeq)
    && (forall i :: 0 <= i < |s.calls| ==> Answers(s, s.calls[i]))
    && (forall k :: k in s.messages && s.messages[k].role == User ==> exists i :: 0 <= i < |s.calls| && s.calls[i].answerSeq == k)
  }

  ghost predicate IsFirstAt(calls: seq<Call>, step: Step, i: nat) {
    i < |calls| && calls[i].step == step && forall j :: 0 <= j < i ==> calls[j].step != step
  }

  ghost predicate IsLastAt(calls: seq<Call>, step: Step, i: nat) {
    i < |calls| && calls[i].step == step && forall j :: i < j < |calls| ==> calls[j].step != step
  }

  /** A gate row: the last call's verdict, score and missing list, the first call's judge, and the
      attempts the state machine counted after the last call. */
  ghost predicate Summarises(s: Session, step: Step) {
    && step in s.gates
    && |s.calls| == |s.trail|
    && (exists i: nat :: IsFirstAt(s.calls, step, i) && s.gates[step].judge == s.calls[i].judge)
    && (exists i: nat :: IsLastAt(s.calls, step, i) && RowOfCall(s, s.gates[step], i))
  }

  ghost predicate RowOfCall(s: Session, g: GateRow, i: nat)
    requires i < |s.calls| == |s.trail|
  {
    && g.verdict == s.calls[i].verdict && g.score == s.calls[i].score && g.missing == s.calls[i].missing
    && g.attempts == Fold(s.row.track, s.trail[..i + 1]).attempts
  }

  function PassScores(gates: map<Step, GateRow>): map<Step, int> {
    map step | step in gates && gates[step].verdict == Pass :: gates[step].score
  }

  /** The gate table summarises the log, and its passing rows are the scores the reload drops. */
  ghost predicate GatesSummarise(s: Session) {
    && (forall step :: step in s.gates ==> Summarises(s, step))
    && (forall i :: 0 <= i < |s.calls| ==> s.calls[i].step in s.gates)
    && (forall step :: step in s.gates ==> TrackOf(step) == s.row.track && StepIndex(step) <= Passes(s.trail))
    && (forall step :: step in s.gates ==> (s.gates[step].verdict == Pass <==> StepIndex(step) < Passes(s.trail)))
    && (forall step :: TrackOf(step) == s.row.track && StepIndex(step) < Passes(s.trail) ==> step in s.gates)
    && PassScores(s.gates) == Replayed(s).scores
  }

  ghost predicate Transport(row: Row) {
    row.byok <==> NamesCloudModel(row.model)
  }

  ghost predicate AllClient(calls: seq<Call>) {
    forall i :: 0 <= i < |calls| ==> calls[i].judge == Client
  }

  /** A session judged only in the browser holds its messages in pairs. */
  ghost predicate ClientTurnsPair(s: Session) {
    AllClient(s.calls) ==> |s.messages| == 2 * |s.calls|
  }

  /** The audit log holds a pass at this step. */
  ghost predicate PassLogged(calls: seq<Call>, step: Step) {
    exists i :: 0 <= i < |calls| && calls[i].step == step && calls[i].verdict == Pass
  }

  /** How many steps of its ladder a row has behind it. */
  function StepsBehind(row: Row): nat {
    StepIndex(row.step) + if row.status == Completed then 1 else 0
  }

  /** Every step behind the row was passed. */
  ghost predicate StepIsEarned(s: Session) {
    && TrackOf(s.row.step) == s.row.track
    && s.row.stepIndex == StepIndex(s.row.step)
    && forall step :: TrackOf(step) == s.row.track && StepIndex(step) < StepsBehind(s.row) ==> PassLogged(s.calls, step)
  }

  ghost predicate Lasting(s: Session) {
    && Transcript(s)
    && CallsMatchAnswers(s)
    && CallsRecorded(s)
    && StepIsEarned(s)
    && Transport(s.row)
    && ClientTurnsPair(s)
  }

  ghost predicate Exact(s: Session) {
    && RowFoldsLog(s)
    && CallsClimb(s)
    && GatesSummarise(s)
  }

  /** The runs that a claim speaks of: all of them, those in which no turn loses what it has not seen, or
      those in which no reflected row lowers a version. */
  datatype Kind = AnyRun | LosslessRun | OrderedRun

  ghost predicate SessionOk(kind: Kind, s: Session) {
    && Lasting(s)
    && (kind != AnyRun ==> Exact(s))
    && (kind == OrderedRun ==> VersionCounts(s))
  }

  // ---------------------------------------------------------------- growth

  predicate SameIdentity(a: Row, b: Row) {
    && b.user == a.user && b.problem == a.problem && b.track == a.track && b.origin == a.origin && b.rubric == a.rubric
  }

  /** How one session's stores at two moments of any run are related. A completed session is frozen but
      for its version. */
  ghost predicate Grows(a: Session, b: Session) {
    && SameIdentity(a.row, b.row)
    && a.calls <= b.calls && a.trail <= b.trail && a.switches <= b.switches && a.bumps <= b.bumps
    && (a.row.status == Completed ==> SameButVersion(a, b))
    && (forall k :: k in a.messages ==> k in b.messages && b.messages[k] == a.messages[k])
  }

  /** What the version check buys: an equal version means an equal row. */
  ghost predicate Ordered(a: Session, b: Session) {
    && a.row.version <= b.row.version
    && (a.row.version == b.row.version ==> SameState(a, b))
  }

  ghost predicate Evolves(kind: Kind, a: Session, b: Session) {
    Grows(a, b) && (kind == OrderedRun ==> Ordered(a, b))
  }

  /** Everything but the transcript, which coach replies still extend. */
  ghost predicate SameState(a: Session, b: Session) {
    && a.row == b.row && a.gates == b.gates && a.calls == b.calls && a.trail == b.trail
    && a.switches == b.switches && a.bumps == b.bumps
  }

  ghost predicate SameButVersion(a: Session, b: Session) {
    && a.row.(version := 0) == b.row.(version := 0)
    && a.gates == b.gates && a.calls == b.calls && a.trail == b.trail && a.switches == b.switches
  }

  lemma EvolvesIsReflexive(kind: Kind, a: Session)
    ensures Evolves(kind, a, a)
  {
  }

  lemma EvolvesIsTransitive(kind: Kind, a: Session, b: Session, c: Session)
    requires Evolves(kind, a, b) && Evolves(kind, b, c)
    ensures Evolves(kind, a, c)
  {
    if a.row.status == Completed { StatusIsKept(a, b); }
  }

  lemma StatusIsKept(a: Session, b: Session)
    requires Grows(a, b) && a.row.status == Completed
    ensures b.row.status == Completed
  {
    assert b.row.(version := 0).status == a.row.(version := 0).status;
  }

  // ---------------------------------------------------------------- sequence numbers

  lemma NextSeqIsCount(s: Session)
    requires Transcript(s)
    ensures NextSeq(s) == |s.messages| + 1
  {
    if |s.messages| > 0 {
      assert |s.messages| in s.messages.Keys;
    }
  }

  // ---------------------------------------------------------------- a new session

  lemma NewSessionOk(user: string, problem: string, origin: string, track: Track, rubric: string,
                     model: Option<ModelKey>, byok: bool, now: int)
    requires byok <==> NamesCloudModel(model)
    ensures SessionOk(OrderedRun, NewSession(user, problem, origin, track, rubric, model, byok, now))
  {
    NewSessionLasts(user, problem, origin, track, rubric, model, byok, now);
    NewSessionIsExact(user, problem, origin, track, rubric, model, byok, now);
  }

  lemma NewSessionLasts(user: string, problem: string, origin: string, track: Track, rubric: string,
                        model: Option<ModelKey>, byok: bool, now: int)
    requires byok <==> NamesCloudModel(model)
    ensures Lasting(NewSession(user, problem, origin, track, rubric, model, byok, now))
  {
    LadderPosition(track, 0);
  }

  lemma NewSessionIsExact(user: string, problem: string, origin: string, track: Track, rubric: string,
                          model: Option<ModelKey>, byok: bool, now: int)
    ensures Exact(NewSession(user, problem, origin, track, rubric, model, byok, now))
  {
    LadderPosition(track, 0);
    assert PassScores(NewSession(user, problem, origin, track, rubric, model, byok, now).gates) == map[];
  }
}
