/** What the verdicts of the gate hold: field by field, of the object that the model returned. */
module GateReadings {
  import opened Wrappers
  import opened Builtins
  import opened Verdicts
  import opened Gate

  function Word(v: Verdict): string {
    match v
    case Pass => "pass"
    case Retry => "retry"
    case OffTopic => "off_topic"
    case Question => "question"
  }

  function Strings(l: seq<string>): (items: seq<Json>)
    ensures |items| == |l| && forall i :: 0 <= i < |l| ==> items[i] == JStr(l[i])
  {
    seq(|l|, i requires 0 <= i < |l| => JStr(l[i]))
  }

  /** The object that a verdict is written as. */
  function Written(v: GateVerdict): Raw {
    map[FVerdict := JStr(Word(v.verdict)), FScore := JInt(v.score), FRubricHits := JList(Strings(v.rubricHits)),
        FMissing := JList(Strings(v.missing)), FHint := JStr(v.hint), FNextHintLevel := JInt(v.nextHintLevel)]
  }

  // ---------------------------------------------------------------- a valid object

  /** A value that an integer literal admits. */
  predicate Admits(lenient: bool, value: Json, i: int) {
    || value == JInt(i)
    || (lenient && value.JFloat? && value.f == i as real)
    || (lenient && value.JBool? && i == if value.flag then 1 else 0)
  }

  predicate ReadsInt(lenient: bool, raw: Raw, field: Field, i: int) {
    if field in raw then Admits(lenient, raw[field], i) else i == 0
  }

  predicate ReadsList(raw: Raw, field: Field, l: seq<string>) {
    if field in raw then raw[field] == JList(Strings(l)) else l == []
  }

  /** Each field of the verdict is the one of the object, or its default. */
  predicate Reads(lenient: bool, raw: Raw, v: GateVerdict) {
    && raw.Keys <= {FVerdict, FScore, FRubricHits, FMissing, FHint, FNextHintLevel}
    && FVerdict in raw && raw[FVerdict] == JStr(Word(v.verdict))
    && ReadsInt(lenient, raw, FScore, v.score)
    && ReadsList(raw, FRubricHits, v.rubricHits)
    && ReadsList(raw, FMissing, v.missing)
    && (if FHint in raw then raw[FHint] == JStr(v.hint) else v.hint == "")
    && ReadsInt(lenient, raw, FNextHintLevel, v.nextHintLevel)
  }

  lemma StringsHead(items: seq<Json>, l: seq<string>)
    requires items != [] && l != []
    ensures items == Strings(l) <==> items[0] == JStr(l[0]) && items[1..] == Strings(l[1..])
  {
    assert items == [items[0]] + items[1..] && l == [l[0]] + l[1..];
    assert Strings(l) == [JStr(l[0])] + Strings(l[1..]);
  }

  lemma SameHead(items: seq<string>, l: seq<string>)
    requires items != [] && l != []
    ensures items == l <==> items[0] == l[0] && items[1..] == l[1..]
  {
    assert items == [items[0]] + items[1..] && l == [l[0]] + l[1..];
  }

  lemma {:induction false} StringsOfIff(items: seq<Json>, l: seq<string>)
    ensures StringsOf(items) == Some(l) <==> items == Strings(l)
  {
    if items == [] || l == [] {
      assert |Strings(l)| == |l|;
    } else {
      StringsOfIff(items[1..], l[1..]);
      StringsHead(items, l);
      if StringsOf(items).Some? { SameHead(StringsOf(items).value, l); }
    }
  }

  lemma ListIff(raw: Raw, field: Field, l: seq<string>)
    ensures StrList(FieldOr(raw, field, JList([]))) == Some(l) <==> ReadsList(raw, field, l)
  {
    if field in raw && raw[field].JList? { StringsOfIff(raw[field].items, l); }
  }

  lemma IntIff(lenient: bool, raw: Raw, field: Field, i: int)
    ensures LiteralInt(lenient, FieldOr(raw, field, JInt(0))) == Some(i) <==> ReadsInt(lenient, raw, field, i)
  {
  }

  lemma VerdictIff(raw: Raw, v: Verdict)
    ensures VerdictOf(raw) == Some(v) <==> FVerdict in raw && raw[FVerdict] == JStr(Word(v))
  {
  }

  /** The validator accepts an object as a verdict if and only if the verdict is what the object says. */
  lemma ValidatesIff(lenient: bool, raw: Raw, v: GateVerdict)
    ensures Validate(lenient, raw) == Some(v) <==> Reads(lenient, raw, v)
  {
    VerdictIff(raw, v.verdict);
    IntIff(lenient, raw, FScore, v.score);
    IntIff(lenient, raw, FNextHintLevel, v.nextHintLevel);
    ListIff(raw, FRubricHits, v.rubricHits);
    ListIff(raw, FMissing, v.missing);
  }

  /** Round trip: every verdict, written as an object, is validated to itself. */
  lemma ValidateUndoesWrite(lenient: bool, v: GateVerdict)
    ensures Validate(lenient, Written(v)) == Some(v)
  {
    ValidatesIff(lenient, Written(v), v);
  }

  // ---------------------------------------------------------------- a repaired object

  predicate IsNearest(b: int, x: real) {
    && b in SCORE_VALUES
    && forall c :: c in SCORE_VALUES ==> Abs(b as real - x) < Abs(c as real - x) || (Abs(b as real - x) == Abs(c as real - x) && b <= c)
  }

  /** A score that is a number goes to its nearest bucket; anything else that is there goes to zero. */
  predicate RepairedScore(raw: Raw, score: int) {
    if FScore !in raw then score == 0
    else match raw[FScore]
      case JInt(i) => IsNearest(score, i as real)
      case JFloat(x) => IsNearest(score, x)
      case _ => score == 0
  }

  /** A bare string becomes a list of it, unless it is blank; null becomes no entry. */
  predicate RepairedList(raw: Raw, field: Field, l: seq<string>) {
    if field !in raw then l == []
    else match raw[field]
      case JNull => l == []
      case JStr(s) => l == if IsBlank(s) then [] else [s]
      case JList(items) => items == Strings(l)
      case _ => false
  }

  /** A level is cut to a whole number and to 0..3. */
  predicate RepairedLevel(lenient: bool, raw: Raw, level: int) {
    if FNextHintLevel !in raw then level == 0
    else match raw[FNextHintLevel]
      case JInt(i) => level == if i <= 0 then 0 else if i >= 3 then 3 else i
      case JFloat(x) => if x < 1.0 then level == 0 else if x >= 3.0 then level == 3 else level as real <= x < level as real + 1.0
      case JBool(flag) => lenient && level == if flag then 1 else 0
      case _ => false
  }

  /** A verdict that is not named goes to retry. */
  predicate RepairedVerdict(raw: Raw, v: Verdict) {
    if exists w :: FieldOr(raw, FVerdict, JNull) == JStr(Word(w)) then raw[FVerdict] == JStr(Word(v)) else v == Retry
  }

  lemma RepairedVerdictIs(raw: Raw)
    requires VerdictOf(Repaired(raw)).Some?
    ensures RepairedVerdict(raw, VerdictOf(Repaired(raw)).value)
  {
    var v := VerdictOf(Repaired(raw)).value;
    assert Repaired(raw)[FVerdict] == CoerceVerdict(FieldOr(raw, FVerdict, JNull));
    VerdictIff(Repaired(raw), v);
    if w :| FieldOr(raw, FVerdict, JNull) == JStr(Word(w)) {
      assert VerdictNamed(Word(w)) == Some(w);
    } else {
      NotNamed(FieldOr(raw, FVerdict, JNull));
    }
  }

  lemma NotNamed(value: Json)
    requires !exists w :: value == JStr(Word(w))
    ensures CoerceVerdict(value) == JStr("retry")
  {
    if value.JStr? { NamedIsWord(value.s); }
  }

  lemma NamedIsWord(name: string)
    ensures VerdictNamed(name).Some? ==> name == Word(VerdictNamed(name).value)
  {
  }

  lemma RepairedScoreIs(lenient: bool, raw: Raw)
    requires ScoreOf(lenient, Repaired(raw)).Some?
    ensures RepairedScore(raw, ScoreOf(lenient, Repaired(raw)).value)
  {
    if FScore in raw {
      match raw[FScore]
      case JInt(i) => NearestOf(i as real);
      case JFloat(x) => NearestOf(x);
      case _ =>
    }
  }

  lemma NearestOf(x: real)
    ensures IsNearest(Snap(x), x)
  {
    SnapIsNearestTiesDown(x);
  }

  lemma RepairedListIs(raw: Raw, field: Field)
    requires field == FRubricHits || field == FMissing
    requires StrList(FieldOr(Repaired(raw), field, JList([]))).Some?
    ensures RepairedList(raw, field, StrList(FieldOr(Repaired(raw), field, JList([]))).value)
  {
    var l := StrList(FieldOr(Repaired(raw), field, JList([]))).value;
    ListIff(Repaired(raw), field, l);
    if field in raw {
      assert Repaired(raw)[field] == CoerceStrList(raw[field]);
    }
  }

  lemma RepairedLevelIs(lenient: bool, raw: Raw)
    requires HintLevelOf(lenient, Repaired(raw)).Some?
    ensures RepairedLevel(lenient, raw, HintLevelOf(lenient, Repaired(raw)).value)
  {
    if FNextHintLevel in raw {
      assert Repaired(raw)[FNextHintLevel] == CoerceLevel(raw[FNextHintLevel]);
    }
  }

  predicate ReadsRepaired(lenient: bool, raw: Raw, v: GateVerdict) {
    && RepairedVerdict(raw, v.verdict)
    && RepairedScore(raw, v.score)
    && RepairedList(raw, FRubricHits, v.rubricHits)
    && RepairedList(raw, FMissing, v.missing)
    && (if FHint in raw then raw[FHint] == JStr(v.hint) else v.hint == "")
    && RepairedLevel(lenient, raw, v.nextHintLevel)
  }

  lemma RepairedReads(lenient: bool, raw: Raw)
    requires Validate(lenient, Repaired(raw)).Some?
    ensures ReadsRepaired(lenient, raw, Validate(lenient, Repaired(raw)).value)
  {
    RepairedVerdictIs(raw);
    RepairedScoreIs(lenient, raw);
    RepairedListIs(raw, FRubricHits);
    RepairedListIs(raw, FMissing);
    RepairedLevelIs(lenient, raw);
    RepairedFields(raw);
  }

  // ---------------------------------------------------------------- what the gate answers

  /** What every verdict of the gate holds, by how it came about: what the object says, what its repair
      says, or nothing but a retry. */
  lemma JudgementReads(lenient: bool, answer: Option<Raw>)
    requires Judgement(lenient, answer).Evaluated?
    ensures var Evaluated(v, outcome) := Judgement(lenient, answer);
            match outcome
            case Valid => answer.Some? && Reads(lenient, answer.value, v)
            case Coerced => answer.Some? && ReadsRepaired(lenient, answer.value, v)
            case FailsafeSchema =>
              answer.Some? && v.score == 0 && v == GateVerdict(Retry, v.score, [], [], "Let's try that again.", 0)
            case FailsafeProvider =>
              answer.None? && v.score == 0 && v == GateVerdict(Retry, v.score, [], [], "Let's take another pass at that.", 0)
  {
    if answer.Some? {
      var first := Validate(lenient, answer.value);
      if first.Some? {
        ValidatesIff(lenient, answer.value, first.value);
      } else if Validate(lenient, Repaired(answer.value)).Some? {
        RepairedReads(lenient, answer.value);
      }
    }
  }
}
