/** grounding_mcp/tools.py: the grounding tools, consumers of the index, the splitter and the search. */
module Tools {
  import opened Wrappers
  import opened Builtins
  import opened Splitter
  import opened Corpus
  import opened CorpusIndex
  import opened Search

  datatype Settings = Settings(maxBody: nat, maxRelated: nat)

  datatype Payload =
    | NotFound(problemId: string)
    | Problem(chapter: Chapter, statement: string)
    | Lesson(chapter: Chapter, content: string, solution: Option<string>)

  function Cap(text: string, limit: nat): string {
    if |text| <= limit then text else StripRight(text[..limit]) + "\n\n…[truncated]"
  }

  function GetProblem(s: Settings, docs: map<string, ChapterDoc>, problemId: string): Payload {
    match Lookup(docs, problemId)
    case None => NotFound(problemId)
    case Some(doc) => Problem(doc.chapter, Cap(doc.visible, s.maxBody))
  }

  function GetLesson(s: Settings, docs: map<string, ChapterDoc>, problemId: string, includeSolution: bool): Payload {
    match Lookup(docs, problemId)
    case None => NotFound(problemId)
    case Some(doc) =>
      Lesson(doc.chapter, Cap(doc.visible, s.maxBody),
             if includeSolution && doc.solution != "" then Some(Cap(doc.solution, s.maxBody)) else None)
  }

  /** A text that fits is given whole; a longer one is cut at the limit, its blank end taken off, and
      marked. */
  ghost predicate CappedTo(text: string, limit: nat, shown: string) {
    if |text| <= limit then shown == text
    else exists kept, blank :: text[..limit] == kept + blank && IsBlank(blank) && shown == kept + "\n\n…[truncated]"
                               && (kept == "" || !IsSpace(kept[|kept| - 1]))
  }

  lemma {:induction false} StripRightCuts(s: string)
    ensures var kept := StripRight(s);
            kept <= s && IsBlank(s[|kept|..]) && (kept == "" || !IsSpace(kept[|kept| - 1]))
  {
    if s != "" && IsSpace(s[|s| - 1]) {
      var init := s[..|s| - 1];
      StripRightCuts(init);
      assert s[|StripRight(init)|..] == init[|StripRight(init)|..] + [s[|s| - 1]];
    }
  }

  lemma CapCuts(text: string, limit: nat)
    ensures CappedTo(text, limit, Cap(text, limit))
  {
    if |text| > limit {
      var kept := StripRight(text[..limit]);
      StripRightCuts(text[..limit]);
      assert text[..limit] == kept + text[..limit][|kept|..];
    }
  }

  /** The answer to a problem's own id, field by field. */
  ghost predicate ShowsProblem(s: Settings, f: Found, payload: Payload) {
    payload.Problem? && payload.chapter == f.chapter && CappedTo(Visible(f.body), s.maxBody, payload.statement)
  }

  ghost predicate ShowsLesson(s: Settings, f: Found, includeSolution: bool, payload: Payload) {
    && payload.Lesson? && payload.chapter == f.chapter && CappedTo(Visible(f.body), s.maxBody, payload.content)
    && (payload.solution.Some? <==> includeSolution && Solution(f.body) != "")
    && (payload.solution.Some? ==> CappedTo(Solution(f.body), s.maxBody, payload.solution.value))
  }

  /** Any id is answered with the last chapter found under it, and with its solution exactly when that is
      asked for and there is one; an id under which nothing is found is named in the refusal. */
  lemma {:induction false} IdsAreAnswered(s: Settings, content: seq<Entry>, id: string, includeSolution: bool)
    ensures var found := FoundIn(content);
            var problem, lesson := GetProblem(s, DocsOf(found), id), GetLesson(s, DocsOf(found), id, includeSolution);
            if exists f :: f in found && ProblemId(f.chapter) == id
            then exists k: nat :: LastOfId(found, id, k) && ShowsProblem(s, found[k], problem)
                                  && ShowsLesson(s, found[k], includeSolution, lesson)
            else problem == NotFound(id) == lesson
  {
    var found := FoundIn(content);
    LookupIsExact(content, id);
    var doc := Lookup(DocsOf(found), id);
    if doc.Some? {
      CapCuts(doc.value.visible, s.maxBody);
      CapCuts(doc.value.solution, s.maxBody);
    }
  }

  // ---------------------------------------------------------------- the solution does not leak

  /** The same chapters, written as flat bodies that differ at most inside their blocks. */
  ghost predicate SameOutsideBlocks(a: seq<Found>, b: seq<Found>) {
    |a| == |b| && forall i :: 0 <= i < |a| ==> a[i].chapter == b[i].chapter && SamePlains(a[i].body, b[i].body)
  }

  ghost predicate SamePlains(a: string, b: string) {
    exists x, y :: IsFlat(x) && IsFlat(y) && a == Print(x) && b == Print(y) && Plains(x) == Plains(y)
  }

  /** Equal but for what the solution field holds. */
  ghost predicate SameButSolution(a: map<string, ChapterDoc>, b: map<string, ChapterDoc>) {
    a.Keys == b.Keys && forall id :: id in a ==> a[id].chapter == b[id].chapter && a[id].visible == b[id].visible
  }

  lemma {:induction false} DocsDifferInSolutions(a: seq<Found>, b: seq<Found>)
    requires SameOutsideBlocks(a, b)
    ensures SameButSolution(DocsOf(a), DocsOf(b))
  {
    if a != [] {
      var x, y := a[|a| - 1], b[|b| - 1];
      DocsDifferInSolutions(a[..|a| - 1], b[..|b| - 1]);
      assert SamePlains(x.body, y.body);
      var p, q :| IsFlat(p) && IsFlat(q) && x.body == Print(p) && y.body == Print(q) && Plains(p) == Plains(q);
      VisibleIgnoresBlocks(p, q);
    }
  }

  /** Two corpora that differ only inside details blocks give the same get_problem payload, the same
      solution-free get_lesson payload, and the same text to search, for every id. */
  lemma {:induction false} PayloadsIgnoreBlocks(s: Settings, a: seq<Found>, b: seq<Found>, problemId: string)
    requires SameOutsideBlocks(a, b)
    ensures GetProblem(s, DocsOf(a), problemId) == GetProblem(s, DocsOf(b), problemId)
    ensures GetLesson(s, DocsOf(a), problemId, false) == GetLesson(s, DocsOf(b), problemId, false)
    ensures forall c :: IndexedText(c, DocsOf(a)) == IndexedText(c, DocsOf(b))
  {
    DocsDifferInSolutions(a, b);
    LookupsAgree(DocsOf(a), DocsOf(b), problemId);
    forall c ensures IndexedText(c, DocsOf(a)) == IndexedText(c, DocsOf(b)) {
      LookupsAgree(DocsOf(a), DocsOf(b), ProblemId(c));
    }
  }

  lemma LookupsAgree(a: map<string, ChapterDoc>, b: map<string, ChapterDoc>, id: string)
    requires SameButSolution(a, b)
    ensures Lookup(a, id).Some? <==> Lookup(b, id).Some?
    ensures Lookup(a, id).Some? ==> Lookup(a, id).value.chapter == Lookup(b, id).value.chapter
    ensures Lookup(a, id).Some? ==> Lookup(a, id).value.visible == Lookup(b, id).value.visible
  {
    LookupIsById(a, id);
    LookupIsById(b, id);
  }

  // ---------------------------------------------------------------- related chapters

  /** min(limit or maximum, maximum): an absent limit and a limit of zero both mean the maximum. */
  function Limit(limit: Option<nat>, maximum: nat): (n: nat)
    ensures limit.Some? && 0 < limit.value <= maximum ==> n == limit.value
    ensures limit == None || limit.value == 0 || limit.value > maximum ==> n == maximum
  {
    var asked := if limit == None || limit == Some(0) then maximum else limit.value;
    if asked <= maximum then asked else maximum
  }

  /** The ranking without one chapter. */
  function Others(hits: seq<Hit>, problemId: string): seq<Hit> {
    if hits == [] then []
    else
      var h := hits[|hits| - 1];
      Others(hits[..|hits| - 1], problemId) + if ProblemId(h.chapter) == problemId then [] else [h]
  }

  /** All hits but that chapter's stay, in their order. */
  lemma {:induction false} OthersStay(a: seq<Hit>, h: Hit, b: seq<Hit>, problemId: string)
    ensures Others(a + [h] + b, problemId)
         == Others(a, problemId) + (if ProblemId(h.chapter) != problemId then [h] else []) + Others(b, problemId)
  {
    if b == [] {
      assert a + [h] + b == a + [h] && (a + [h])[..|a|] == a;
    } else {
      OthersStay(a, h, b[..|b| - 1], problemId);
      assert (a + [h] + b)[..|a + [h] + b| - 1] == a + [h] + b[..|b| - 1];
    }
  }

  /** The search asks for one hit more than is wanted; the loop stops when enough are collected, and it
      looks only after it has collected one. */
  method ListRelated(s: Settings, docs: map<string, ChapterDoc>, index: Bm25Index, problemId: string, limit: Option<nat>,
                     ghost texts: seq<Tokens>)
    returns (related: Option<seq<Hit>>)
    requires index.Indexes(texts)
    ensures related.None? <==> Lookup(docs, problemId).None?
    ensures related.Some? ==>
              var doc := Lookup(docs, problemId).value;
              var terms := Tokenize(doc.chapter.title + " " + doc.visible);
              var n := Limit(limit, s.maxRelated);
              related.value == Collected(Relevant(index.ln, index.chapters, texts, terms, None), problemId, n)
  {
    var doc := Lookup(docs, problemId);
    if doc.None? {
      return None;
    }
    var n := Limit(limit, s.maxRelated);
    var hits := index.Search(doc.value.chapter.title + " " + doc.value.visible, n + 1, None, texts);
    var out := CollectOthers(hits, problemId, n);
    related := Some(out);
  }

  method CollectOthers(hits: seq<Hit>, problemId: string, n: nat) returns (out: seq<Hit>)
    ensures out == Take(Others(hits, problemId), if n == 0 then 1 else n)
  {
    out := [];
    for i := 0 to |hits|
      invariant out == Others(hits[..i], problemId) && (|out| < n || |out| == 0)
    {
      assert hits[..i + 1][..i] == hits[..i];
      if ProblemId(hits[i].chapter) != problemId {
        out := out + [hits[i]];
        if |out| >= n {
          OthersPrefix(hits, problemId, i + 1);
          return out;
        }
      }
    }
    assert hits[..|hits|] == hits;
  }

  function Collected(ranking: seq<Hit>, problemId: string, n: nat): seq<Hit> {
    Take(Others(Take(ranking, n + 1), problemId), if n == 0 then 1 else n)
  }

  lemma {:induction false} OthersPrefix(hits: seq<Hit>, problemId: string, i: nat)
    requires i <= |hits|
    ensures Others(hits[..i], problemId) <= Others(hits, problemId)
  {
    if i < |hits| {
      OthersPrefix(hits[..|hits| - 1], problemId, i);
      assert hits[..|hits| - 1][..i] == hits[..i];
    } else {
      assert hits[..i] == hits;
    }
  }

  ghost predicate AtMostOnce(hits: seq<Hit>, problemId: string) {
    forall i, j :: 0 <= i < j < |hits| ==> !(ProblemId(hits[i].chapter) == problemId && ProblemId(hits[j].chapter) == problemId)
  }

  lemma {:induction false} OthersLength(hits: seq<Hit>, problemId: string)
    requires AtMostOnce(hits, problemId)
    ensures |Others(hits, problemId)| <= |hits| <= |Others(hits, problemId)| + 1
    ensures (forall i :: 0 <= i < |hits| ==> ProblemId(hits[i].chapter) != problemId) ==> |Others(hits, problemId)| == |hits|
  {
    if hits != [] {
      var init := hits[..|hits| - 1];
      OthersLength(init, problemId);
    }
  }

  /** With distinct ids and at least one wanted, list_related is exactly the first n of the full ranking
      with the chapter itself removed. */
  lemma {:induction false} RelatedIsExact(ln: Log, chapters: seq<Chapter>, texts: seq<Tokens>, terms: seq<string>, problemId: string, n: nat)
    requires |chapters| == |texts| && ChapterIdsDiffer(chapters) && n >= 1
    ensures var ranking := Relevant(ln, chapters, texts, terms, None);
            Collected(ranking, problemId, n) == Take(Others(ranking, problemId), n)
  {
    RelevantIdsDiffer(ln, chapters, texts, terms, None);
    OneMoreIsEnough(Relevant(ln, chapters, texts, terms, None), problemId, n);
  }

  lemma OneMoreIsEnough(ranking: seq<Hit>, problemId: string, n: nat)
    requires HitIdsDiffer(ranking) && n >= 1
    ensures Collected(ranking, problemId, n) == Take(Others(ranking, problemId), n)
  {
    if n + 1 <= |ranking| {
      OthersPrefix(ranking, problemId, n + 1);
      OthersLength(ranking[..n + 1], problemId);
    }
  }

  /** With a maximum of zero the promise is broken by one hit, exactly when the best hit is another
      chapter. */
  lemma {:induction false} NoneWantedIff(ranking: seq<Hit>, problemId: string)
    ensures Collected(ranking, problemId, 0) == Take(Others(ranking, problemId), 0)
       <==> ranking == [] || ProblemId(ranking[0].chapter) == problemId
  {
    if ranking != [] {
      var best := Take(ranking, 1);
      assert best == [ranking[0]] && best[..0] == [];
      assert Others(best, problemId) == if ProblemId(ranking[0].chapter) == problemId then [] else [ranking[0]];
    }
  }
}
