/** tutor/orchestration/byok.py: the verdict a browser posts goes through the gate's own repair. */
module Byok {
  import opened Wrappers
  import opened Verdicts
  import opened Gate

  const RUBRIC_HITS_CAMEL := FOther("rubricHits")
  const NEXT_HINT_LEVEL_CAMEL := FOther("nextHintLevel")

  /** Accepted, refused as a contract violation (ValueError, a 422), or an exception of the repair. */
  datatype ClientVerdict = Accepted(verdict: GateVerdict, outcome: GateOutcome) | Refused | Raised

  function Snake(raw: Raw): Raw {
    map[
      FVerdict := FieldOr(raw, FVerdict, JNull),
      FScore := FieldOr(raw, FScore, JInt(0)),
      FRubricHits := FieldOr(raw, RUBRIC_HITS_CAMEL, FieldOr(raw, FRubricHits, JList([]))),
      FMissing := FieldOr(raw, FMissing, JList([])),
      FHint := FieldOr(raw, FHint, JStr("")),
      FNextHintLevel := FieldOr(raw, NEXT_HINT_LEVEL_CAMEL, FieldOr(raw, FNextHintLevel, JInt(0)))]
  }

  function ValidateClientVerdict(lenient: bool, raw: Raw): ClientVerdict {
    match Validate(lenient, Snake(raw))
    case Some(verdict) => Accepted(verdict, Valid)
    case None =>
      if RepairRaises(Snake(raw)) then Raised
      else match Validate(lenient, Repaired(Snake(raw)))
        case Some(verdict) => Accepted(verdict, Coerced)
        case None => Refused
  }

  /** byok-record's answer to a posted verdict: int() of nan raises the same ValueError that refuses, int()
      of an infinity and the lookup of an unhashable verdict raise others, which no handler catches. */
  datatype RouteAnswer = Taken(verdict: GateVerdict, outcome: GateOutcome) | Unprocessable | Uncaught

  function PostedVerdict(lenient: bool, raw: Raw): RouteAnswer {
    match ValidateClientVerdict(lenient, raw)
    case Accepted(verdict, outcome) => Taken(verdict, outcome)
    case Refused => Unprocessable
    case Raised =>
      if Hashable(Snake(raw)[FVerdict]) && Snake(raw)[FNextHintLevel] == JNonFinite(true) then Unprocessable else Uncaught
  }

  /** When exactly a post escapes the route's handler, and when it is answered with a verdict. */
  lemma PostEscapesIff(lenient: bool, raw: Raw)
    ensures PostedVerdict(lenient, raw).Uncaught?
       <==> !Hashable(FieldOr(raw, FVerdict, JNull)) || Snake(raw)[FNextHintLevel] == JNonFinite(false)
    ensures PostedVerdict(lenient, raw).Taken? <==> ValidateClientVerdict(lenient, raw).Accepted?
  {
    var snake := Snake(raw);
    if Validate(lenient, snake).Some? {
      assert VerdictOf(snake).Some? && HintLevelOf(lenient, snake).Some?;
    }
  }

  /** The six names on the wire, and the field each one posts. */
  const WIRE_FIELDS: set<Field> := {FVerdict, FScore, RUBRIC_HITS_CAMEL, FMissing, FHint, NEXT_HINT_LEVEL_CAMEL}

  function Posts(name: Field): Field {
    if name == RUBRIC_HITS_CAMEL then FRubricHits
    else if name == NEXT_HINT_LEVEL_CAMEL then FNextHintLevel
    else name
  }

  /** The wire form of a gate object. */
  function Camel(raw: Raw): Raw {
    map name | name in WIRE_FIELDS && Posts(name) in raw :: raw[Posts(name)]
  }

  predicate SameFields(a: Raw, b: Raw) {
    && a.Keys <= FIELDS && b.Keys <= FIELDS
    && FieldOr(a, FVerdict, JNull) == FieldOr(b, FVerdict, JNull)
    && FieldOr(a, FScore, JInt(0)) == FieldOr(b, FScore, JInt(0))
    && FieldOr(a, FRubricHits, JList([])) == FieldOr(b, FRubricHits, JList([]))
    && FieldOr(a, FMissing, JList([])) == FieldOr(b, FMissing, JList([]))
    && FieldOr(a, FHint, JStr("")) == FieldOr(b, FHint, JStr(""))
    && FieldOr(a, FNextHintLevel, JInt(0)) == FieldOr(b, FNextHintLevel, JInt(0))
  }

  lemma SameFieldsValidateAlike(lenient: bool, a: Raw, b: Raw)
    requires SameFields(a, b)
    ensures Validate(lenient, a) == Validate(lenient, b)
  {
  }

  /** A field left out and a field filled with its default repair to the same object's fields. */
  lemma RepairKeepsSameFields(a: Raw, b: Raw)
    requires SameFields(a, b)
    ensures SameFields(Repaired(a), Repaired(b))
  {
    RepairedFields(a);
    RepairedFields(b);
    RepairedScoresAgree(a, b);
    assert CoerceStrList(JNull) == CoerceStrList(JList([]));
  }

  lemma RepairedScoresAgree(a: Raw, b: Raw)
    requires FieldOr(a, FScore, JInt(0)) == FieldOr(b, FScore, JInt(0))
    ensures FieldOr(Repaired(a), FScore, JInt(0)) == FieldOr(Repaired(b), FScore, JInt(0))
  {
    RepairedFields(a);
    RepairedFields(b);
    BucketsAreTens(0);
    SnapKeepsBuckets(0);
    assert CoerceScore(JInt(0)) == JInt(0);
  }

  lemma SameFieldsRaiseAlike(a: Raw, b: Raw)
    requires SameFields(a, b)
    ensures RepairRaises(a) == RepairRaises(b)
  {
  }

  lemma SnakeUndoesCamel(raw: Raw)
    requires raw.Keys <= FIELDS
    ensures SameFields(Snake(Camel(raw)), raw)
  {
    var wire := Camel(raw);
    assert "rubricHits"[0] != "nextHintLevel"[0];
    assert Posts(NEXT_HINT_LEVEL_CAMEL) == FNextHintLevel;
    assert FRubricHits !in wire && FNextHintLevel !in wire;
  }

  /** The schema's own names are read as well, and where a post has both, the wire's name wins. */
  lemma SchemaNamesAreReadToo(raw: Raw, field: Field, wire: Field, value: Json)
    requires (field, wire) in {(FRubricHits, FOther("rubricHits")), (FNextHintLevel, FOther("nextHintLevel"))}
    ensures raw.Keys <= FIELDS ==> SameFields(Snake(raw), raw)
    ensures Snake(raw[wire := value])[field] == value
    ensures forall other :: other in FIELDS && other != field ==> Snake(raw[wire := value])[other] == Snake(raw)[other]
  {
    assert FOther("rubricHits") != FOther("nextHintLevel") by { assert "rubricHits"[0] != "nextHintLevel"[0]; }
  }

  /** The two routes agree on every object over the known fields: the client's verdict is accepted
      exactly when the server's is valid or repaired, with the same verdict and classification;
      refused exactly when the server would fall back; and raises exactly when the server's raises. */
  lemma ValidatorsAgree(lenient: bool, raw: Raw)
    requires raw.Keys <= FIELDS
    ensures match ValidateClientVerdict(lenient, Camel(raw)) {
              case Accepted(verdict, outcome) =>
                outcome in {Valid, Coerced} && Judgement(lenient, Some(raw)) == Evaluated(verdict, outcome)
              case Refused =>
                Judgement(lenient, Some(raw)).Evaluated? && Judgement(lenient, Some(raw)).outcome == FailsafeSchema
              case Raised =>
                Judgement(lenient, Some(raw)).Escaped?
            }
  {
    var snake := Snake(Camel(raw));
    SnakeUndoesCamel(raw);
    SameFieldsValidateAlike(lenient, snake, raw);
    RepairKeepsSameFields(snake, raw);
    SameFieldsRaiseAlike(snake, raw);
    SameFieldsValidateAlike(lenient, Repaired(snake), Repaired(raw));
  }

  /** Where they part: a field the schema does not know is forbidden to the server's model and
      ignored in the client's post. */
  lemma UnknownFieldsAreIgnoredFromClients(lenient: bool, raw: Raw, name: string, value: Json)
    requires name != "rubricHits" && name != "nextHintLevel"
    ensures ValidateClientVerdict(lenient, raw[FOther(name) := value]) == ValidateClientVerdict(lenient, raw)
    ensures var e := Judgement(lenient, Some(raw[FOther(name) := value])); e.Evaluated? ==> e.outcome == FailsafeSchema
  {
    assert Snake(raw[FOther(name) := value]) == Snake(raw);
    UnknownFieldsAreForbidden(lenient, raw[FOther(name) := value], FOther(name));
  }

  lemma UnknownFieldsAreForbidden(lenient: bool, raw: Raw, field: Field)
    requires field in raw && field.FOther?
    ensures Judgement(lenient, Some(raw)).Evaluated? ==> Judgement(lenient, Some(raw)).outcome == FailsafeSchema
  {
    assert field in Repaired(raw);
  }
}
