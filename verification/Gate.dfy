/** tutor/orchestration/gate.py: validate, repair once, fail safe. The raw tool output is a JSON
    object; the validator is the one the GateVerdict record declares.

    `lenient` is the one library behaviour the repository does not fix: whether a literal field also
    admits a value that merely equals an allowed integer (80.0, true). Everything is stated for both. */
module Gate {
  import opened Wrappers
  import opened Builtins
  import opened Verdicts

  datatype Json =
    | JNull
    | JBool(flag: bool)
    | JInt(i: int)
    | JFloat(f: real)
    | JNonFinite(nan: bool) // nan and the infinities, which json.loads accepts
    | JStr(s: string)
    | JList(items: seq<Json>)
    | JObject(fields: map<string, Json>)

  /** A key of the tool output: one the schema knows, or any other name. */
  datatype Field = FVerdict | FScore | FRubricHits | FMissing | FHint | FNextHintLevel | FOther(name: string)

  type Raw = map<Field, Json>

  datatype GateOutcome = Valid | Coerced | FailsafeSchema | FailsafeProvider

  /** `Escaped` is an exception that the except clauses of `evaluate` do not name. */
  datatype Evaluation = Evaluated(verdict: GateVerdict, outcome: GateOutcome) | Escaped

  const FIELDS: set<Field> := {FVerdict, FScore, FRubricHits, FMissing, FHint, FNextHintLevel}

  function VerdictNamed(name: string): Option<Verdict> {
    match name
    case "pass" => Some(Pass)
    case "retry" => Some(Retry)
    case "off_topic" => Some(OffTopic)
    case "question" => Some(Question)
    case _ => None
  }

  // ---------------------------------------------------------------- validation

  function FieldOr(raw: Raw, field: Field, default: Json): Json {
    if field in raw then raw[field] else default
  }

  function LiteralInt(lenient: bool, value: Json): Option<int> {
    match value
    case JInt(i) => Some(i)
    case JFloat(f) => if lenient && f == f.Floor as real then Some(f.Floor) else None
    case JBool(flag) => if lenient then Some(if flag then 1 else 0) else None
    case _ => None
  }

  function StringsOf(items: seq<Json>): Option<seq<string>> {
    if items == [] then Some([])
    else match (items[0], StringsOf(items[1..]))
      case (JStr(s), Some(rest)) => Some([s] + rest)
      case _ => None
  }

  function StrList(value: Json): Option<seq<string>> {
    if value.JList? then StringsOf(value.items) else None
  }

  function ScoreOf(lenient: bool, raw: Raw): Option<int> {
    match LiteralInt(lenient, FieldOr(raw, FScore, JInt(0)))
    case Some(i) => if i in SCORE_VALUES then Some(i) else None
    case None => None
  }

  function HintLevelOf(lenient: bool, raw: Raw): Option<int> {
    match LiteralInt(lenient, FieldOr(raw, FNextHintLevel, JInt(0)))
    case Some(i) => if 0 <= i <= 3 then Some(i) else None
    case None => None
  }

  function VerdictOf(raw: Raw): Option<Verdict> {
    match FieldOr(raw, FVerdict, JNull)
    case JStr(name) => VerdictNamed(name)
    case _ => None
  }

  /** GateVerdict.model_validate: None stands for a ValidationError. */
  function Validate(lenient: bool, raw: Raw): Option<GateVerdict> {
    if !(raw.Keys <= FIELDS) then None else
    match (VerdictOf(raw), ScoreOf(lenient, raw), StrList(FieldOr(raw, FRubricHits, JList([]))),
           StrList(FieldOr(raw, FMissing, JList([]))), FieldOr(raw, FHint, JStr("")), HintLevelOf(lenient, raw))
    case (Some(verdict), Some(score), Some(hits), Some(missing), JStr(hint), Some(level)) =>
      Some(GateVerdict(verdict, score, hits, missing, hint, level))
    case _ => None
  }

  // ---------------------------------------------------------------- repair

  function Abs(x: real): real { if x < 0.0 then -x else x }

  /** The order of the key (|bucket - score|, bucket). */
  predicate Nearer(a: int, b: int, score: real) {
    Abs(a as real - score) < Abs(b as real - score)
    || (Abs(a as real - score) == Abs(b as real - score) && a < b)
  }

  function ClosestFrom(best: int, rest: seq<int>, score: real): int
    decreases |rest|
  {
    if rest == [] then best
    else ClosestFrom(if Nearer(rest[0], best, score) then rest[0] else best, rest[1..], score)
  }

  function Snap(score: real): int {
    ClosestFrom(SCORE_VALUES[0], SCORE_VALUES[1..], score)
  }

  function ClampLevel(level: int): int {
    if level < 0 then 0 else if level > 3 then 3 else level
  }

  function CoerceStrList(value: Json): Json {
    match value
    case JNull => JList([])
    case JStr(s) => if IsBlank(s) then JList([]) else JList([JStr(s)])
    case _ => value
  }

  predicate Hashable(value: Json) {
    !value.JList? && !value.JObject?
  }

  /** The two ways the repair itself raises: a set lookup of an unhashable verdict, and int() of a
      non-finite hint level. */
  predicate RepairRaises(raw: Raw) {
    || !Hashable(FieldOr(raw, FVerdict, JNull))
    || FieldOr(raw, FNextHintLevel, JNull).JNonFinite?
  }

  function CoerceVerdict(value: Json): Json {
    if value.JStr? && VerdictNamed(value.s).Some? then value else JStr("retry")
  }

  /** min over the buckets. Against a non-finite score every bucket is equally far (or comparable to
      none), so the first bucket stays. */
  function SnapJson(score: Json): int {
    match score
    case JInt(i) => Snap(i as real)
    case JFloat(f) => Snap(f)
    case _ => SCORE_VALUES[0]
  }

  function CoerceScore(value: Json): Json {
    if value.JInt? || value.JFloat? || value.JNonFinite? then JInt(SnapJson(value)) else JInt(0)
  }

  function CoerceLevel(value: Json): Json {
    match value
    case JInt(i) => JInt(ClampLevel(i))
    case JFloat(f) => JInt(ClampLevel(Trunc(f)))
    case _ => value
  }

  /** What the repair leaves under one key of the object. */
  function RepairedAt(raw: Raw, key: Field): Json
    requires key in raw || key == FVerdict
  {
    match key
    case FVerdict => CoerceVerdict(FieldOr(raw, FVerdict, JNull))
    case FScore => if raw[key] == JNull then JNull else CoerceScore(raw[key])
    case FNextHintLevel => CoerceLevel(raw[key])
    case FRubricHits => CoerceStrList(raw[key])
    case FMissing => CoerceStrList(raw[key])
    case _ => raw[key]
  }

  function Repaired(raw: Raw): Raw {
    map key | key in raw.Keys + {FVerdict} :: RepairedAt(raw, key)
  }

  /** The score branches. */
  method CoerceScoreField(raw: Raw) returns (out: Raw)
    ensures out == ScoreCoerced(raw)
  {
    out := raw;
    var score := FieldOr(out, FScore, JNull);
    if score.JBool? {
      out := out[FScore := JInt(0)];
    } else if score.JInt? || score.JFloat? || score.JNonFinite? {
      out := out[FScore := JInt(SnapJson(score))];
    } else if score != JNull {
      out := out[FScore := JInt(0)];
    }
  }

  /** The loop over the two list fields. */
  method CoerceLists(raw: Raw) returns (out: Raw)
    ensures out.Keys == raw.Keys
    ensures forall key :: key in raw ==> out[key] == if key == FRubricHits || key == FMissing then CoerceStrList(raw[key]) else raw[key]
  {
    out := raw;
    var names := [FRubricHits, FMissing];
    for n := 0 to 2
      invariant out.Keys == raw.Keys
      invariant forall key :: key in raw && key !in names[..n] ==> out[key] == raw[key]
      invariant forall key :: key in raw && key in names[..n] ==> out[key] == CoerceStrList(raw[key])
    {
      if names[n] in out {
        out := out[names[n] := CoerceStrList(out[names[n]])];
      }
    }
    assert names[..2] == names;
    assert forall key :: key in names <==> key == FRubricHits || key == FMissing;
  }

  method CoerceLevelField(raw: Raw) returns (out: Raw)
    requires !FieldOr(raw, FNextHintLevel, JNull).JNonFinite?
    ensures out == LevelCoerced(raw)
  {
    out := raw;
    var level := FieldOr(out, FNextHintLevel, JNull);
    if level.JInt? || level.JFloat? {
      out := out[FNextHintLevel := CoerceLevel(level)];
    }
  }

  function VerdictCoerced(raw: Raw): Raw {
    raw[FVerdict := CoerceVerdict(FieldOr(raw, FVerdict, JNull))]
  }

  function ScoreCoerced(raw: Raw): Raw {
    if FieldOr(raw, FScore, JNull) == JNull then raw else raw[FScore := CoerceScore(raw[FScore])]
  }

  function LevelCoerced(raw: Raw): Raw {
    if FNextHintLevel in raw then raw[FNextHintLevel := CoerceLevel(raw[FNextHintLevel])] else raw
  }

  /** Field by field the branches add up to the repair. */
  lemma BranchesRepair(raw: Raw, out: Raw)
    requires var l := LevelCoerced(ScoreCoerced(VerdictCoerced(raw)));
             && out.Keys == l.Keys
             && forall key :: key in l ==> out[key] == if key == FRubricHits || key == FMissing then CoerceStrList(l[key]) else l[key]
    ensures out == Repaired(raw)
  {
    var v := VerdictCoerced(raw);
    var s := ScoreCoerced(v);
    var l := LevelCoerced(s);
    assert v.Keys == s.Keys == l.Keys == out.Keys == raw.Keys + {FVerdict};
    forall key | key in out ensures out[key] == RepairedAt(raw, key) {
      assert key != FVerdict ==> v[key] == raw[key];
      assert key != FScore ==> s[key] == v[key];
      assert key != FNextHintLevel ==> l[key] == s[key];
    }
  }

  method Coerce(raw: Raw) returns (r: Result<Raw, ()>)
    ensures r == if RepairRaises(raw) then Err(()) else Ok(Repaired(raw))
  {
    var out := raw;
    var verdict := FieldOr(out, FVerdict, JNull);
    if !Hashable(verdict) {
      return Err(());
    }
    if !(verdict.JStr? && VerdictNamed(verdict.s).Some?) {
      out := out[FVerdict := JStr("retry")];
    }
    assert out == VerdictCoerced(raw);
    out := CoerceScoreField(out);
    if FieldOr(out, FNextHintLevel, JNull).JNonFinite? {
      return Err(());
    }
    out := CoerceLevelField(out);
    out := CoerceLists(out);
    BranchesRepair(raw, out);
    r := Ok(out);
  }

  // ---------------------------------------------------------------- evaluation

  /** `answer` is what the provider did: raised (None) or returned an object. */
  function Judgement(lenient: bool, answer: Option<Raw>): Evaluation {
    match answer
    case None => Evaluated(RetryFailsafe("Let's take another pass at that."), FailsafeProvider)
    case Some(raw) =>
      match Validate(lenient, raw)
      case Some(verdict) => Evaluated(verdict, Valid)
      case None =>
        if RepairRaises(raw) then Escaped
        else match Validate(lenient, Repaired(raw))
          case Some(verdict) => Evaluated(verdict, Coerced)
          case None => Evaluated(RetryFailsafe("Let's try that again."), FailsafeSchema)
  }

  method Evaluate(lenient: bool, answer: Option<Raw>) returns (e: Evaluation)
    ensures e == Judgement(lenient, answer)
  {
    match answer
    case None =>
      e := Evaluated(RetryFailsafe("Let's take another pass at that."), FailsafeProvider);
    case Some(raw) =>
      match Validate(lenient, raw)
      case Some(verdict) =>
        e := Evaluated(verdict, Valid);
      case None =>
        var repaired := Coerce(raw);
        match repaired
        case Err(_) => e := Escaped;
        case Ok(out) =>
          match Validate(lenient, out)
          case Some(verdict) => e := Evaluated(verdict, Coerced);
          case None => e := Evaluated(RetryFailsafe("Let's try that again."), FailsafeSchema);
  }

  // ---------------------------------------------------------------- the gate never grants

  /** The gate passes an answer only if the model said "pass" in so many words, in an object with no
      field the schema does not know; and the fail-safes never pass. */
  lemma GateNeverGrants(lenient: bool, answer: Option<Raw>)
    requires var e := Judgement(lenient, answer); e.Evaluated? && e.verdict.verdict == Pass
    ensures answer.Some? && answer.value.Keys <= FIELDS
    ensures FVerdict in answer.value && answer.value[FVerdict] == JStr("pass")
    ensures Judgement(lenient, answer).outcome in {Valid, Coerced}
  {
    var raw := answer.value;
    if Validate(lenient, raw).None? {
      assert raw.Keys <= Repaired(raw).Keys;
      assert VerdictOf(Repaired(raw)) == Some(Pass);
      assert Repaired(raw)[FVerdict] == CoerceVerdict(FieldOr(raw, FVerdict, JNull));
    }
  }

  /** The gate always answers, unless the model's object is invalid in a way the repair itself
      raises on; the turn is then refused. */
  lemma GateAnswers(lenient: bool, answer: Option<Raw>)
    ensures Judgement(lenient, answer).Evaluated?
        <==> answer.None? || (&& Hashable(FieldOr(answer.value, FVerdict, JNull))
                              && !FieldOr(answer.value, FNextHintLevel, JNull).JNonFinite?)
  {
    if answer.Some? && Validate(lenient, answer.value).Some? {
      assert VerdictOf(answer.value).Some?;
      assert HintLevelOf(lenient, answer.value).Some?;
    }
  }

  /** A verdict the model named is never replaced by another one: the gate keeps it or withholds. */
  lemma GateKeepsOrWithholds(lenient: bool, raw: Raw)
    requires Judgement(lenient, Some(raw)).Evaluated?
    ensures Judgement(lenient, Some(raw)).verdict.verdict == Retry
         || Some(Judgement(lenient, Some(raw)).verdict.verdict) == VerdictOf(raw)
  {
    assert FVerdict in Repaired(raw);
  }

  // ---------------------------------------------------------------- score arithmetic

  lemma {:induction false} ClosestIsLeast(best: int, rest: seq<int>, score: real)
    ensures ClosestFrom(best, rest, score) in [best] + rest
    ensures forall b :: b in [best] + rest ==> !Nearer(b, ClosestFrom(best, rest, score), score)
    decreases |rest|
  {
    if rest != [] {
      var kept := if Nearer(rest[0], best, score) then rest[0] else best;
      ClosestIsLeast(kept, rest[1..], score);
      assert [kept][0] == kept;
      assert kept in [kept] + rest[1..];
      assert forall b :: b in [best] + rest ==> b == best || b == rest[0] || b in rest[1..];
    }
  }

  /** The nearest bucket; of two equally near ones the lower. */
  lemma SnapIsNearestTiesDown(score: real)
    ensures Snap(score) in SCORE_VALUES
    ensures forall b :: b in SCORE_VALUES ==> Abs(Snap(score) as real - score) <= Abs(b as real - score)
    ensures forall b :: b in SCORE_VALUES && Abs(Snap(score) as real - score) == Abs(b as real - score) ==> Snap(score) <= b
  {
    ClosestIsLeast(SCORE_VALUES[0], SCORE_VALUES[1..], score);
    assert [SCORE_VALUES[0]] + SCORE_VALUES[1..] == SCORE_VALUES;
    forall b | b in SCORE_VALUES
      ensures Abs(Snap(score) as real - score) <= Abs(b as real - score)
      ensures Abs(Snap(score) as real - score) == Abs(b as real - score) ==> Snap(score) <= b
    {
      assert b in [SCORE_VALUES[0]] + SCORE_VALUES[1..];
      assert !Nearer(b, Snap(score), score);
    }
  }

  lemma SnapIsMonotone(x: real, y: real)
    requires x <= y
    ensures Snap(x) <= Snap(y)
  {
    SnapIsNearestTiesDown(x);
    SnapIsNearestTiesDown(y);
  }

  lemma SnapWithinFive(x: real)
    requires 0.0 <= x <= 100.0
    ensures Abs(Snap(x) as real - x) <= 5.0
  {
    var n := ((x + 5.0) / 10.0).Floor;
    assert 0 <= n <= 10;
    BucketsAreTens(n);
    assert Abs((10 * n) as real - x) <= 5.0;
    SnapBeats(x, 10 * n);
  }

  lemma SnapBeats(x: real, b: int)
    requires b in SCORE_VALUES
    ensures Abs(Snap(x) as real - x) <= Abs(b as real - x)
  {
    SnapIsNearestTiesDown(x);
  }

  lemma BucketsAreTens(n: nat)
    requires n <= 10
    ensures 10 * n in SCORE_VALUES
  {
    assert SCORE_VALUES[n] == 10 * n;
  }

  lemma SnapKeepsBuckets(b: int)
    requires b in SCORE_VALUES
    ensures Snap(b as real) == b
  {
    SnapIsNearestTiesDown(b as real);
  }

  // ---------------------------------------------------------------- the repair

  /** Snapping a number that is there lands on a bucket, and a bucket snaps to itself. */
  lemma SnapJsonLandsOnBucket(value: Json)
    ensures SnapJson(value) in SCORE_VALUES
    ensures CoerceScore(CoerceScore(value)) == CoerceScore(value)
  {
    match value
    case JInt(i) => SnapIsNearestTiesDown(i as real); SnapKeepsBuckets(SnapJson(value));
    case JFloat(f) => SnapIsNearestTiesDown(f); SnapKeepsBuckets(SnapJson(value));
    case _ => BucketsAreTens(0); SnapKeepsBuckets(0);
  }

  /** Repairing twice repairs no further. */
  lemma RepairIsIdempotent(raw: Raw)
    ensures Repaired(Repaired(raw)) == Repaired(raw)
  {
    var once := Repaired(raw);
    forall key | key in once ensures Repaired(once)[key] == once[key] {
      if key == FScore {
        SnapJsonLandsOnBucket(raw[key]);
      }
    }
    assert Repaired(once).Keys == once.Keys;
  }

  /** What the validator finds in a repaired object, field by field. */
  lemma RepairedFields(raw: Raw)
    ensures Repaired(raw).Keys == raw.Keys + {FVerdict}
    ensures FieldOr(Repaired(raw), FVerdict, JNull) == CoerceVerdict(FieldOr(raw, FVerdict, JNull))
    ensures FieldOr(Repaired(raw), FScore, JInt(0))
         == if FScore in raw then RepairedAt(raw, FScore) else JInt(0)
    ensures FieldOr(Repaired(raw), FRubricHits, JList([])) == CoerceStrList(FieldOr(raw, FRubricHits, JNull))
    ensures FieldOr(Repaired(raw), FMissing, JList([])) == CoerceStrList(FieldOr(raw, FMissing, JNull))
    ensures FieldOr(Repaired(raw), FHint, JStr("")) == FieldOr(raw, FHint, JStr(""))
    ensures FieldOr(Repaired(raw), FNextHintLevel, JInt(0)) == CoerceLevel(FieldOr(raw, FNextHintLevel, JInt(0)))
  {
    assert Repaired(raw).Keys == raw.Keys + {FVerdict};
  }

  predicate ScoreRepairs(raw: Raw) {
    FieldOr(raw, FScore, JInt(0)) != JNull
  }

  predicate LevelRepairs(lenient: bool, level: Json) {
    level.JInt? || level.JFloat? || (level.JBool? && lenient)
  }

  lemma RepairedScoreIsValid(lenient: bool, raw: Raw)
    ensures ScoreOf(lenient, Repaired(raw)).Some? <==> ScoreRepairs(raw)
  {
    RepairedFields(raw);
    BucketsAreTens(0);
    if FScore in raw && raw[FScore] != JNull { SnapJsonLandsOnBucket(raw[FScore]); }
  }

  lemma RepairKeepsScore(lenient: bool, raw: Raw)
    requires ScoreOf(lenient, raw).Some?
    ensures ScoreOf(lenient, Repaired(raw)) == ScoreOf(lenient, raw)
  {
    RepairedFields(raw);
    BucketsAreTens(0);
    if FScore in raw {
      SnapKeepsBuckets(ScoreOf(lenient, raw).value);
      assert raw[FScore].JBool? && raw[FScore].flag ==> 1 in SCORE_VALUES;
    }
  }

  lemma RepairedLevelIsValid(lenient: bool, raw: Raw)
    ensures HintLevelOf(lenient, Repaired(raw)).Some? <==> LevelRepairs(lenient, FieldOr(raw, FNextHintLevel, JInt(0)))
    ensures HintLevelOf(lenient, raw).Some? ==> HintLevelOf(lenient, Repaired(raw)) == HintLevelOf(lenient, raw)
  {
    RepairedFields(raw);
  }

  /** Repairing what is already valid changes nothing the validator reads. */
  lemma RepairKeepsValid(lenient: bool, raw: Raw)
    requires Validate(lenient, raw).Some?
    ensures !RepairRaises(raw)
    ensures Validate(lenient, Repaired(raw)) == Validate(lenient, raw)
  {
    assert VerdictOf(raw).Some? && HintLevelOf(lenient, raw).Some?;
    RepairedFields(raw);
    RepairKeepsScore(lenient, raw);
    RepairedLevelIsValid(lenient, raw);
    assert VerdictOf(Repaired(raw)) == VerdictOf(raw);
  }

  /** Under the strict reading of literals the repair is the identity on valid objects. */
  lemma RepairIsIdentityOnValid(raw: Raw)
    requires Validate(false, raw).Some?
    ensures Repaired(raw) == raw
  {
    assert VerdictOf(raw).Some? && ScoreOf(false, raw).Some? && HintLevelOf(false, raw).Some?;
    assert StrList(FieldOr(raw, FRubricHits, JList([]))).Some?;
    assert StrList(FieldOr(raw, FMissing, JList([]))).Some?;
    forall key | key in raw ensures Repaired(raw)[key] == raw[key] {
      if key == FScore { SnapKeepsBuckets(raw[key].i); }
    }
    assert Repaired(raw).Keys == raw.Keys;
  }

  /** Exactly which objects one repair mends: list fields, the hint and a hint level of the wrong
      type, a null score, and an unknown field are beyond it. */
  lemma RepairSucceedsWhen(lenient: bool, raw: Raw)
    ensures Validate(lenient, Repaired(raw)).Some?
       <==> && raw.Keys <= FIELDS
            && ScoreRepairs(raw)
            && StrList(CoerceStrList(FieldOr(raw, FRubricHits, JNull))).Some?
            && StrList(CoerceStrList(FieldOr(raw, FMissing, JNull))).Some?
            && FieldOr(raw, FHint, JStr("")).JStr?
            && LevelRepairs(lenient, FieldOr(raw, FNextHintLevel, JInt(0)))
  {
    RepairedFields(raw);
    RepairedScoreIsValid(lenient, raw);
    RepairedLevelIsValid(lenient, raw);
    assert VerdictOf(Repaired(raw)).Some?;
  }
}
