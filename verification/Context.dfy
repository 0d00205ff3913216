/** tutor/grounding/context.py: what of a grounded lesson enters a model's context at a step. */
module Context {
  import opened Wrappers
  import opened Builtins
  import opened Steps

  /** A get_lesson payload; an absent and an empty field are both falsy, so both are "". */
  datatype Grounded = Grounded(title: string, summary: string, content: string, statement: string,
                               solution: string, citationUrl: string)

  predicate WantsSolution(step: Step) {
    step == Implement || step == Test
  }

  function FallbackContext(problem: string): string {
    "Problem id: " + problem
    + "\n(The grounding service is unavailable — reason from the conversation and this id.)"
  }

  function Or(a: string, b: string): string {
    if a != "" then a else b
  }

  /** The section that a field contributes: none when the field is empty. */
  function Section(body: string, section: string): seq<string> {
    if body == "" then [] else [section]
  }

  const SOLUTION_HEADING := "## Reference solution (for grading the implementation — do NOT reveal verbatim)\n\n"

  function ContextParts(problem: string, g: Grounded, step: Step): seq<string> {
    ["# " + Or(g.title, problem)]
    + Section(g.summary, g.summary)
    + Section(Or(g.content, g.statement), "## Problem\n\n" + Or(g.content, g.statement))
    + (if WantsSolution(step) then Section(g.solution, SOLUTION_HEADING + g.solution) else [])
    + Section(g.citationUrl, "(source: " + g.citationUrl + ")")
  }

  method BuildProblemContext(problem: string, grounded: Option<Grounded>, step: Step) returns (context: string)
    ensures context == match grounded
                       case None => FallbackContext(problem)
                       case Some(g) => Join(ContextParts(problem, g, step), "\n\n")
  {
    if grounded.None? {
      return FallbackContext(problem);
    }
    var parts := BuildParts(problem, grounded.value, step);
    context := Join(parts, "\n\n");
  }

  /** The sections in order, each appended when its field is not empty. */
  method BuildParts(problem: string, g: Grounded, step: Step) returns (parts: seq<string>)
    ensures parts == ContextParts(problem, g, step)
  {
    parts := ["# " + Or(g.title, problem)];
    if g.summary != "" {
      parts := parts + [g.summary];
    }
    var statement := Or(g.content, g.statement);
    if statement != "" {
      parts := parts + ["## Problem\n\n" + statement];
    }
    if WantsSolution(step) && g.solution != "" {
      parts := parts + [SOLUTION_HEADING + g.solution];
    }
    if g.citationUrl != "" {
      parts := parts + ["(source: " + g.citationUrl + ")"];
    }
  }

  function ProblemContext(problem: string, grounded: Option<Grounded>, step: Step): string {
    match grounded
    case None => FallbackContext(problem)
    case Some(g) => Join(ContextParts(problem, g, step), "\n\n")
  }

  function Total(parts: seq<string>): nat {
    if parts == [] then 0 else Total(parts[..|parts| - 1]) + |parts[|parts| - 1]|
  }

  lemma {:induction false} JoinLength(parts: seq<string>, separator: string)
    requires parts != []
    ensures |Join(parts, separator)| == Total(parts) + (|parts| - 1) * |separator|
  {
    if |parts| > 1 {
      JoinLength(parts[..|parts| - 1], separator);
    } else {
      assert Total(parts[..0]) == 0;
    }
  }

  lemma {:induction false} TotalOfConcat(a: seq<string>, b: seq<string>)
    ensures Total(a + b) == Total(a) + Total(b)
  {
    if b == [] {
      assert a + b == a;
    } else {
      TotalOfConcat(a, b[..|b| - 1]);
      assert (a + b)[..|a + b| - 1] == a + b[..|b| - 1];
    }
  }

  /** The worked solution can reach a model's context exactly at the two code steps. */
  lemma SolutionEntersContextIff(problem: string, g: Grounded, step: Step)
    ensures WantsSolution(step)
       <==> exists other :: ProblemContext(problem, Some(g.(solution := other)), step) != ProblemContext(problem, Some(g), step)
  {
    if WantsSolution(step) {
      var short, long := g.(solution := "x"), g.(solution := "xx");
      var before := ["# " + Or(g.title, problem)] + Section(g.summary, g.summary)
                    + Section(Or(g.content, g.statement), "## Problem\n\n" + Or(g.content, g.statement));
      var after := Section(g.citationUrl, "(source: " + g.citationUrl + ")");
      assert ContextParts(problem, short, step) == before + [SOLUTION_HEADING + "x"] + after;
      assert ContextParts(problem, long, step) == before + [SOLUTION_HEADING + "xx"] + after;
      LongerPartLongerJoin(before, SOLUTION_HEADING + "x", SOLUTION_HEADING + "xx", after, "\n\n");
      assert ProblemContext(problem, Some(short), step) != ProblemContext(problem, Some(long), step);
      assert g.(solution := "x") == short && g.(solution := "xx") == long;
    } else {
      forall other ensures ProblemContext(problem, Some(g.(solution := other)), step) == ProblemContext(problem, Some(g), step) {
        assert ContextParts(problem, g.(solution := other), step) == ContextParts(problem, g, step);
      }
    }
  }

  lemma LongerPartLongerJoin(before: seq<string>, a: string, b: string, after: seq<string>, separator: string)
    requires |a| < |b|
    ensures |Join(before + [a] + after, separator)| < |Join(before + [b] + after, separator)|
  {
    JoinLength(before + [a] + after, separator);
    JoinLength(before + [b] + after, separator);
    TotalOfConcat(before + [a], after);
    TotalOfConcat(before + [b], after);
    TotalOfConcat(before, [a]);
    TotalOfConcat(before, [b]);
    assert [a][..0] == [] == [b][..0];
  }

  // ---------------------------------------------------------------- what a context holds

  ghost predicate Occurs(part: string, whole: string) {
    exists before, after :: whole == before + part + after
  }

  lemma OccursWithin(a: string, b: string, c: string)
    requires Occurs(a, b) && Occurs(b, c)
    ensures Occurs(a, c)
  {
    var p, q :| b == p + a + q;
    var r, t :| c == r + b + t;
    assert c == (r + p) + a + (q + t);
  }

  lemma OccursIn(before: string, part: string, after: string)
    ensures Occurs(part, before + part + after)
  {
  }

  lemma {:induction false} PartOccurs(parts: seq<string>, i: nat, separator: string)
    requires i < |parts|
    ensures Occurs(parts[i], Join(parts, separator))
  {
    if |parts| == 1 {
      OccursIn("", parts[0], "");
      assert "" + parts[0] + "" == parts[0];
    } else {
      var n := |parts| - 1;
      var head := Join(parts[..n], separator);
      if i == n {
        OccursIn(head + separator, parts[n], "");
        assert (head + separator) + parts[n] + "" == head + separator + parts[n];
      } else {
        PartOccurs(parts[..n], i, separator);
        OccursIn("", head, separator + parts[n]);
        assert "" + head + (separator + parts[n]) == head + separator + parts[n];
        OccursWithin(parts[i], head, Join(parts, separator));
      }
    }
  }

  lemma FieldOccurs(parts: seq<string>, i: nat, separator: string, heading: string, field: string, close: string)
    requires i < |parts| && parts[i] == heading + field + close
    ensures Occurs(field, Join(parts, separator))
  {
    PartOccurs(parts, i, separator);
    OccursIn(heading, field, close);
    OccursWithin(field, parts[i], Join(parts, separator));
  }

  function Statement(g: Grounded): string {
    Or(g.content, g.statement)
  }

  function SummaryEnd(g: Grounded): nat {
    if g.summary == "" then 1 else 2
  }

  function StatementEnd(g: Grounded): nat {
    SummaryEnd(g) + if Statement(g) == "" then 0 else 1
  }

  function SolutionEnd(g: Grounded, step: Step): nat {
    StatementEnd(g) + if g.solution != "" && (step == Implement || step == Test) then 1 else 0
  }

  /** Where each section stands among the parts, and what it says. */
  lemma SectionPlaces(problem: string, g: Grounded, step: Step)
    ensures var parts := ContextParts(problem, g, step);
            && |parts| == SolutionEnd(g, step) + (if g.citationUrl == "" then 0 else 1)
            && parts[0] == "# " + Or(g.title, problem) + ""
            && (g.summary != "" ==> parts[1] == "" + g.summary + "")
            && (Statement(g) != "" ==> parts[SummaryEnd(g)] == "## Problem\n\n" + Statement(g) + "")
            && (SolutionEnd(g, step) > StatementEnd(g) ==> parts[StatementEnd(g)] == "## Reference solution (for grading the implementation — do NOT reveal verbatim)\n\n" + g.solution + "")
            && (g.citationUrl != "" ==> parts[SolutionEnd(g, step)] == "(source: " + g.citationUrl + ")")
  {
  }

  /** A grounded context opens with the lesson's title, or the problem's id when it has none, and holds
      the summary, the content, or the statement where there is no content, the citation, and at a code
      step the solution. */
  lemma ContextHolds(problem: string, g: Grounded, step: Step)
    ensures var context := ProblemContext(problem, Some(g), step);
            && Occurs(if g.title == "" then problem else g.title, context)
            && (g.summary != "" ==> Occurs(g.summary, context))
            && (g.content != "" ==> Occurs(g.content, context))
            && (g.content == "" && g.statement != "" ==> Occurs(g.statement, context))
            && (g.citationUrl != "" ==> Occurs(g.citationUrl, context))
            && (step in {Implement, Test} && g.solution != "" ==> Occurs(g.solution, context))
  {
    TitleOccurs(problem, g, step);
    StatementOccurs(problem, g, step);
    LaterOccur(problem, g, step);
  }

  lemma TitleOccurs(problem: string, g: Grounded, step: Step)
    ensures var context := ProblemContext(problem, Some(g), step);
            Occurs(Or(g.title, problem), context) && (g.summary != "" ==> Occurs(g.summary, context))
  {
    var parts := ContextParts(problem, g, step);
    SectionPlaces(problem, g, step);
    FieldOccurs(parts, 0, "\n\n", "# ", Or(g.title, problem), "");
    if g.summary != "" { FieldOccurs(parts, 1, "\n\n", "", g.summary, ""); }
  }

  lemma StatementOccurs(problem: string, g: Grounded, step: Step)
    ensures Statement(g) != "" ==> Occurs(Statement(g), ProblemContext(problem, Some(g), step))
  {
    SectionPlaces(problem, g, step);
    if Statement(g) != "" {
      FieldOccurs(ContextParts(problem, g, step), SummaryEnd(g), "\n\n", "## Problem\n\n", Statement(g), "");
    }
  }

  lemma LaterOccur(problem: string, g: Grounded, step: Step)
    ensures var context := ProblemContext(problem, Some(g), step);
            && (SolutionEnd(g, step) > StatementEnd(g) ==> Occurs(g.solution, context))
            && (g.citationUrl != "" ==> Occurs(g.citationUrl, context))
  {
    var parts := ContextParts(problem, g, step);
    SectionPlaces(problem, g, step);
    if SolutionEnd(g, step) > StatementEnd(g) { FieldOccurs(parts, StatementEnd(g), "\n\n", SOLUTION_HEADING, g.solution, ""); }
    if g.citationUrl != "" { FieldOccurs(parts, SolutionEnd(g, step), "\n\n", "(source: ", g.citationUrl, ")"); }
  }

  /** Without grounding a context still names the problem. */
  lemma FallbackNamesProblem(problem: string, step: Step)
    ensures Occurs(problem, ProblemContext(problem, None, step))
  {
    var note := "\n(The grounding service is unavailable — reason from the conversation and this id.)";
    OccursIn("Problem id: ", problem, note);
    assert FallbackContext(problem) == "Problem id: " + problem + note;
  }
}
