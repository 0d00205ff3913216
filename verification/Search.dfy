/** grounding_mcp/search.py: the BM25 index, and that it answers as scoring every document from its raw
    tokens would. Scores are reals; the logarithm is any function that is positive above one. */
module Search {
  import opened Wrappers
  import opened Builtins
  import opened Corpus
  import opened CorpusIndex

  // ---------------------------------------------------------------- tokens

  /** str.lower() of one character: beyond ASCII only the Kelvin sign and the dotted capital I have a
      lower case with an ASCII letter in it; the others never become token characters. */
  function LowerChar(c: char): string {
    if c == '\U{212A}' then "k" else if c == '\U{0130}' then "i\U{0307}" else [Lower(c)]
  }

  function LowerText(text: string): string {
    if text == "" then "" else LowerText(text[..|text| - 1]) + LowerChar(text[|text| - 1])
  }

  predicate IsTokenChar(c: char) {
    'a' <= c <= 'z' || IsDigit(c)
  }

  function Tokenize(text: string): seq<string> {
    Runs(LowerText(text), IsTokenChar)
  }

  type Tokens = seq<string>

  /** The text a chapter is indexed by: its title three times, then what is visible of it. */
  function IndexedText(c: Chapter, docs: map<string, ChapterDoc>): string {
    var doc := Lookup(docs, ProblemId(c));
    (c.title + " ") + (c.title + " ") + (c.title + " ") + if doc.Some? then doc.value.visible else ""
  }

  function TokensOf(chapters: seq<Chapter>, docs: map<string, ChapterDoc>): seq<Tokens> {
    seq(|chapters|, i requires 0 <= i < |chapters| => Tokenize(IndexedText(chapters[i], docs)))
  }

  // ---------------------------------------------------------------- the reference: raw tokens

  const K1 := 1.5
  const B := 0.75

  function Count(tokens: Tokens, t: string): nat {
    if tokens == [] then 0 else Count(tokens[..|tokens| - 1], t) + if tokens[|tokens| - 1] == t then 1 else 0
  }

  function DocFreq(texts: seq<Tokens>, t: string): (n: nat)
    ensures n <= |texts|
  {
    if texts == [] then 0 else DocFreq(texts[..|texts| - 1], t) + if t in texts[|texts| - 1] then 1 else 0
  }

  function TotalLength(texts: seq<Tokens>): nat {
    if texts == [] then 0 else TotalLength(texts[..|texts| - 1]) + |texts[|texts| - 1]|
  }

  function Average(total: nat, n: nat): (r: real)
    ensures r >= 0.0
  {
    if n == 0 then 0.0 else total as real / n as real
  }

  type Log = real -> real

  ghost predicate PositiveAboveOne(ln: Log) {
    forall x: real :: x > 1.0 ==> ln(x) > 0.0
  }

  function Idf(ln: Log, n: nat, df: nat): real
    requires df <= n
  {
    if df == 0 then 0.0 else ln(1.0 + ((n - df) as real + 0.5) / (df as real + 0.5))
  }

  function Norm(len: nat, average: real): (r: real)
    requires average >= 0.0
    ensures r > 0.0
  {
    1.0 - B + B * (if average != 0.0 then len as real / average else 1.0)
  }

  /** The share of one query term in a document's score. */
  function Share(idf: real, f: nat, len: nat, average: real): real
    requires average >= 0.0
  {
    if f == 0 then 0.0
    else idf * (f as real * (K1 + 1.0)) / (f as real + K1 * Norm(len, average))
  }

  function Score(ln: Log, texts: seq<Tokens>, text: Tokens, terms: seq<string>): real {
    if terms == [] then 0.0
    else
      var t := terms[|terms| - 1];
      Score(ln, texts, text, terms[..|terms| - 1])
      + Share(Idf(ln, |texts|, DocFreq(texts, t)), Count(text, t), |text|, Average(TotalLength(texts), |texts|))
  }

  datatype Hit = Hit(chapter: Chapter, score: real)

  predicate InBook(c: Chapter, book: Option<string>) {
    book.Some? ==> c.book == book.value
  }

  /** The hits among the first n chapters, in corpus order. */
  function Hits(ln: Log, chapters: seq<Chapter>, texts: seq<Tokens>, terms: seq<string>, book: Option<string>, n: nat): seq<Hit>
    requires n <= |chapters| == |texts|
  {
    if n == 0 then []
    else
      var before := Hits(ln, chapters, texts, terms, book, n - 1);
      var score := Score(ln, texts, texts[n - 1], terms);
      if InBook(chapters[n - 1], book) && score > 0.0 then before + [Hit(chapters[n - 1], score)] else before
  }

  // ---------------------------------------------------------------- ranking

  /** Lexicographic order by code point. */
  predicate Less(a: string, b: string) {
    if b == "" then false
    else if a == "" then true
    else a[0] < b[0] || (a[0] == b[0] && Less(a[1..], b[1..]))
  }

  /** a ranks strictly above b: by score, then by id. */
  predicate Above(a: Hit, b: Hit) {
    a.score > b.score || (a.score == b.score && Less(ProblemId(b.chapter), ProblemId(a.chapter)))
  }

  function Insert(h: Hit, ranked: seq<Hit>): seq<Hit> {
    if ranked == [] then [h]
    else if Above(h, ranked[0]) then [h] + ranked
    else [ranked[0]] + Insert(h, ranked[1..])
  }

  /** list.sort(key = (score, id), reverse = True): stable, best first. */
  function Ranking(hits: seq<Hit>): seq<Hit> {
    if hits == [] then [] else Insert(hits[|hits| - 1], Ranking(hits[..|hits| - 1]))
  }

  function Take<T>(s: seq<T>, n: nat): seq<T> {
    if n <= |s| then s[..n] else s
  }

  function Relevant(ln: Log, chapters: seq<Chapter>, texts: seq<Tokens>, terms: seq<string>, book: Option<string>): seq<Hit>
    requires |chapters| == |texts|
  {
    Ranking(Hits(ln, chapters, texts, terms, book, |chapters|))
  }

  // ---------------------------------------------------------------- the index

  ghost predicate CountsTerms(tf: map<string, nat>, text: Tokens) {
    forall t :: (t in tf <==> t in text) && (t in tf ==> tf[t] == Count(text, t))
  }

  ghost predicate CountsDocs(df: map<string, nat>, texts: seq<Tokens>) {
    forall t :: (t in df <==> DocFreq(texts, t) > 0) && (t in df ==> df[t] == DocFreq(texts, t))
  }

  lemma {:induction false} CountIsPositiveIff(text: Tokens, t: string)
    ensures Count(text, t) > 0 <==> t in text
  {
    if text != [] {
      CountIsPositiveIff(text[..|text| - 1], t);
      assert text == text[..|text| - 1] + [text[|text| - 1]];
    }
  }

  method CountTerms(text: Tokens) returns (tf: map<string, nat>)
    ensures CountsTerms(tf, text)
  {
    tf := map[];
    for i := 0 to |text|
      invariant CountsTerms(tf, text[..i])
    {
      var t := text[i];
      assert text[..i + 1] == text[..i] + [t] && text[..i + 1][..i] == text[..i];
      CountIsPositiveIff(text[..i], t);
      tf := tf[t := (if t in tf then tf[t] else 0) + 1];
    }
    assert text[..|text|] == text;
  }

  method CountDoc(df: map<string, nat>, tf: map<string, nat>, ghost texts: seq<Tokens>, ghost text: Tokens) returns (out: map<string, nat>)
    requires CountsDocs(df, texts) && CountsTerms(tf, text)
    ensures CountsDocs(out, texts + [text])
  {
    out := df;
    var rest := tf.Keys;
    while rest != {}
      invariant rest <= tf.Keys
      invariant out.Keys == df.Keys + (tf.Keys - rest)
      invariant forall t :: t in out ==>
                  out[t] == (if t in df then df[t] else 0) + (if t in tf && t !in rest then 1 else 0)
      decreases rest
    {
      var t :| t in rest;
      out := out[t := (if t in out then out[t] else 0) + 1];
      rest := rest - {t};
    }
    assert (texts + [text])[..|texts|] == texts;
  }

  lemma TotalSnoc(texts: seq<Tokens>, i: nat)
    requires i < |texts|
    ensures texts[..i + 1] == texts[..i] + [texts[i]]
    ensures TotalLength(texts[..i + 1]) == TotalLength(texts[..i]) + |texts[i]|
  {
    assert texts[..i + 1][..i] == texts[..i];
  }

  class Bm25Index {
    const ln: Log
    var chapters: seq<Chapter>
    var tf: seq<map<string, nat>>
    var docLen: seq<nat>
    var df: map<string, nat>
    var average: real

    ghost predicate Holds(texts: seq<Tokens>)
      reads this
    {
      && |texts| == |tf| == |docLen|
      && (forall i :: 0 <= i < |texts| ==> CountsTerms(tf[i], texts[i]) && docLen[i] == |texts[i]|)
      && CountsDocs(df, texts)
    }

    /** The tables hold the counts of these texts, one for each chapter. */
    ghost predicate Indexes(texts: seq<Tokens>)
      reads this
    {
      Holds(texts) && |texts| == |chapters| && average == Average(TotalLength(texts), |texts|)
    }

    constructor (ln: Log, chapters: seq<Chapter>, docs: map<string, ChapterDoc>)
      ensures this.ln == ln && this.chapters == chapters
      ensures Indexes(TokensOf(chapters, docs))
    {
      this.ln, this.chapters, tf, docLen, df, average := ln, chapters, [], [], map[], 0.0;
      new;
      ghost var texts := TokensOf(chapters, docs);
      var total := 0;
      for i := 0 to |chapters|
        invariant this.chapters == chapters
        invariant Holds(texts[..i])
        invariant total == TotalLength(texts[..i])
      {
        var tokens := Tokenize(IndexedText(chapters[i], docs));
        TotalSnoc(texts, i);
        AddText(tokens, texts[..i]);
        total := total + |tokens|;
      }
      assert texts[..|chapters|] == texts;
      average := Average(total, |chapters|);
    }

    method AddText(tokens: Tokens, ghost texts: seq<Tokens>)
      requires Holds(texts)
      modifies this
      ensures Holds(texts + [tokens]) && chapters == old(chapters)
    {
      var counts := CountTerms(tokens);
      tf := tf + [counts];
      docLen := docLen + [|tokens|];
      df := CountDoc(df, counts, texts, tokens);
    }

    function IdfOf(t: string): real
      requires t in df ==> df[t] <= |chapters|
      reads this
    {
      Idf(ln, |chapters|, if t in df then df[t] else 0)
    }

    method ScoreOf(i: nat, terms: seq<string>, ghost texts: seq<Tokens>) returns (score: real)
      requires Indexes(texts) && i < |chapters|
      ensures score == Score(ln, texts, texts[i], terms)
    {
      score := 0.0;
      for k := 0 to |terms|
        invariant score == Score(ln, texts, texts[i], terms[..k])
      {
        var t := terms[k];
        assert terms[..k + 1][..k] == terms[..k];
        CountIsPositiveIff(texts[i], t);
        var f := if t in tf[i] then tf[i][t] else 0;
        if f != 0 {
          score := score + Share(IdfOf(t), f, docLen[i], average);
        }
      }
      assert terms[..|terms|] == terms;
    }

    /** search: exactly the first `limit` of the naive ranking. */
    method Search(query: string, limit: nat, book: Option<string>, ghost texts: seq<Tokens>) returns (hits: seq<Hit>)
      requires Indexes(texts)
      ensures hits == Take(Relevant(ln, chapters, texts, Tokenize(query), book), limit)
      ensures var ranking := Relevant(ln, chapters, texts, Tokenize(query), book);
              hits <= ranking && |hits| == if limit < |ranking| then limit else |ranking|
    {
      var terms := Tokenize(query);
      hits := [];
      if terms == [] || |chapters| == 0 {
        NoTermsNoHits(ln, chapters, texts, terms, book, |chapters|);
        return [];
      }
      for i := 0 to |chapters|
        invariant hits == Hits(ln, chapters, texts, terms, book, i)
      {
        if InBook(chapters[i], book) {
          var score := ScoreOf(i, terms, texts);
          if score > 0.0 {
            hits := hits + [Hit(chapters[i], score)];
          }
        }
      }
      hits := Take(Ranking(hits), limit);
    }
  }

  lemma {:induction false} NoTermsNoHits(ln: Log, chapters: seq<Chapter>, texts: seq<Tokens>, terms: seq<string>, book: Option<string>, n: nat)
    requires n <= |chapters| == |texts| && (terms == [] || n == 0)
    ensures Hits(ln, chapters, texts, terms, book, n) == []
  {
    if n > 0 { NoTermsNoHits(ln, chapters, texts, terms, book, n - 1); }
  }

  // ---------------------------------------------------------------- what scores

  lemma DivPositive(x: real, y: real)
    requires x > 0.0 && y > 0.0
    ensures x / y > 0.0
  {
  }

  /** The inverse document frequency of an indexed term is positive. */
  lemma IdfIsPositive(ln: Log, n: nat, df: nat)
    requires PositiveAboveOne(ln) && 0 < df <= n
    ensures Idf(ln, n, df) > 0.0
  {
    DivPositive((n - df) as real + 0.5, df as real + 0.5);
  }

  lemma ShareIsPositive(idf: real, f: nat, len: nat, average: real)
    requires idf > 0.0 && f > 0 && average >= 0.0
    ensures Share(idf, f, len, average) > 0.0
  {
    var up := f as real * (K1 + 1.0);
    assert up > 0.0;
    assert idf * up > 0.0;
    DivPositive(idf * up, f as real + K1 * Norm(len, average));
  }

  lemma {:induction false} DocFreqIsPositive(texts: seq<Tokens>, i: nat, t: string)
    requires i < |texts| && t in texts[i]
    ensures DocFreq(texts, t) > 0
  {
    if i < |texts| - 1 { DocFreqIsPositive(texts[..|texts| - 1], i, t); }
  }

  lemma TermShare(ln: Log, texts: seq<Tokens>, i: nat, t: string)
    requires PositiveAboveOne(ln) && i < |texts|
    ensures var share := Share(Idf(ln, |texts|, DocFreq(texts, t)), Count(texts[i], t), |texts[i]|, Average(TotalLength(texts), |texts|));
            if t in texts[i] then share > 0.0 else share == 0.0
  {
    CountIsPositiveIff(texts[i], t);
    if t in texts[i] {
      DocFreqIsPositive(texts, i, t);
      IdfIsPositive(ln, |texts|, DocFreq(texts, t));
      ShareIsPositive(Idf(ln, |texts|, DocFreq(texts, t)), Count(texts[i], t), |texts[i]|, Average(TotalLength(texts), |texts|));
    }
  }

  predicate Shares(text: Tokens, terms: seq<string>) {
    exists t | t in terms :: t in text
  }

  /** A document scores above zero if and only if it holds a query term. */
  lemma {:induction false} ScoresIffShares(ln: Log, texts: seq<Tokens>, i: nat, terms: seq<string>)
    requires PositiveAboveOne(ln) && i < |texts|
    ensures Score(ln, texts, texts[i], terms) >= 0.0
    ensures Score(ln, texts, texts[i], terms) > 0.0 <==> Shares(texts[i], terms)
  {
    if terms != [] {
      var init, t := terms[..|terms| - 1], terms[|terms| - 1];
      ScoresIffShares(ln, texts, i, init);
      TermShare(ln, texts, i, t);
      assert terms == init + [t];
    }
  }

  // ---------------------------------------------------------------- the ranking is the sorted one

  lemma {:induction false} LessIsTotal(a: string, b: string)
    ensures Less(a, b) || Less(b, a) || a == b
    ensures !(Less(a, b) && Less(b, a)) && !Less(a, a)
  {
    if a != "" && b != "" {
      LessIsTotal(a[1..], b[1..]);
      assert a == [a[0]] + a[1..] && b == [b[0]] + b[1..];
    }
    if a != "" { LessIsIrreflexive(a); }
  }

  lemma {:induction false} LessIsIrreflexive(a: string)
    ensures !Less(a, a)
  {
    if a != "" { LessIsIrreflexive(a[1..]); }
  }

  lemma {:induction false} LessIsTransitive(a: string, b: string, c: string)
    requires Less(a, b) && Less(b, c)
    ensures Less(a, c)
  {
    if a != "" && a[0] == b[0] == c[0] { LessIsTransitive(a[1..], b[1..], c[1..]); }
  }

  lemma AboveIsTotal(a: Hit, b: Hit)
    ensures !(Above(a, b) && Above(b, a))
    ensures ProblemId(a.chapter) != ProblemId(b.chapter) ==> Above(a, b) || Above(b, a)
  {
    LessIsTotal(ProblemId(a.chapter), ProblemId(b.chapter));
  }

  lemma AboveIsTransitive(a: Hit, b: Hit, c: Hit)
    ensures Above(a, b) && Above(b, c) ==> Above(a, c)
    ensures !Above(b, a) && !Above(c, b) ==> !Above(c, a)
  {
    var x, y, z := ProblemId(a.chapter), ProblemId(b.chapter), ProblemId(c.chapter);
    LessIsTotal(x, y);
    LessIsTotal(y, z);
    LessIsTotal(x, z);
    if Less(y, x) && Less(z, y) { LessIsTransitive(z, y, x); }
    if Less(x, z) && Less(z, y) { LessIsTransitive(x, z, y); }
    if Less(y, x) && Less(x, z) { LessIsTransitive(y, x, z); }
  }

  /** Best first. */
  ghost predicate Ranked(hits: seq<Hit>) {
    forall i, j :: 0 <= i < j < |hits| ==> !Above(hits[j], hits[i])
  }

  lemma {:induction false} InsertKeepsHits(h: Hit, ranked: seq<Hit>)
    ensures multiset(Insert(h, ranked)) == multiset(ranked) + multiset{h}
  {
    if ranked != [] && !Above(h, ranked[0]) {
      InsertKeepsHits(h, ranked[1..]);
      assert ranked == [ranked[0]] + ranked[1..];
    }
  }

  lemma InInsert(h: Hit, ranked: seq<Hit>, x: Hit)
    requires x in Insert(h, ranked)
    ensures x == h || x in ranked
  {
    InsertKeepsHits(h, ranked);
    assert x in multiset(Insert(h, ranked));
  }

  lemma {:induction false} InsertKeepsRanked(h: Hit, ranked: seq<Hit>)
    requires Ranked(ranked)
    ensures Ranked(Insert(h, ranked))
  {
    if ranked != [] {
      var r0, rest := ranked[0], ranked[1..];
      if Above(h, r0) {
        forall j | 0 <= j < |ranked| ensures !Above(ranked[j], h) {
          AboveIsTotal(h, r0);
          AboveIsTransitive(h, r0, ranked[j]);
        }
      } else {
        InsertKeepsRanked(h, rest);
        forall j | 0 <= j < |Insert(h, rest)| ensures !Above(Insert(h, rest)[j], r0) {
          InInsert(h, rest, Insert(h, rest)[j]);
        }
      }
    }
  }

  /** The ranking holds the same hits, best first. */
  lemma {:induction false} RankingSorts(hits: seq<Hit>)
    ensures Ranked(Ranking(hits)) && multiset(Ranking(hits)) == multiset(hits)
  {
    if hits != [] {
      var init, h := hits[..|hits| - 1], hits[|hits| - 1];
      RankingSorts(init);
      InsertKeepsRanked(h, Ranking(init));
      InsertKeepsHits(h, Ranking(init));
      assert hits == init + [h];
    }
  }

  ghost predicate HitIdsDiffer(hits: seq<Hit>) {
    forall i, j :: 0 <= i < j < |hits| ==> ProblemId(hits[i].chapter) != ProblemId(hits[j].chapter)
  }

  lemma BestIsUnique(a: seq<Hit>, b: seq<Hit>)
    requires Ranked(a) && Ranked(b) && HitIdsDiffer(a) && multiset(a) == multiset(b) && a != [] && b != []
    ensures a[0] == b[0]
  {
    assert a[0] in multiset(b) && b[0] in multiset(a);
    var i :| 0 <= i < |a| && a[i] == b[0];
    var j :| 0 <= j < |b| && b[j] == a[0];
    AboveIsTotal(a[0], a[i]);
  }

  lemma RestIsSame(a: seq<Hit>, b: seq<Hit>)
    requires a != [] && b != [] && a[0] == b[0] && multiset(a) == multiset(b)
    ensures multiset(a[1..]) == multiset(b[1..])
  {
    assert a == [a[0]] + a[1..] && b == [b[0]] + b[1..];
    assert multiset(a[1..]) == multiset(a) - multiset{a[0]};
    assert multiset(b[1..]) == multiset(b) - multiset{b[0]};
  }

  /** With distinct ids there is only one order to rank them in. */
  lemma {:induction false} RankingIsUnique(a: seq<Hit>, b: seq<Hit>)
    requires Ranked(a) && Ranked(b) && HitIdsDiffer(a) && multiset(a) == multiset(b)
    ensures a == b
    decreases |a|
  {
    assert |a| == |multiset(a)| == |b|;
    if a != [] {
      BestIsUnique(a, b);
      RestIsSame(a, b);
      RankingIsUnique(a[1..], b[1..]);
      assert a == [a[0]] + a[1..] && b == [b[0]] + b[1..];
    }
  }

  ghost predicate IsHit(ln: Log, chapters: seq<Chapter>, texts: seq<Tokens>, terms: seq<string>, book: Option<string>, i: int, h: Hit)
    requires |chapters| == |texts|
  {
    && 0 <= i < |chapters| && h.chapter == chapters[i] && (book.Some? ==> chapters[i].book == book.value)
    && Shares(texts[i], terms) && h.score == Score(ln, texts, texts[i], terms)
  }

  lemma {:induction false} HitsAreExact(ln: Log, chapters: seq<Chapter>, texts: seq<Tokens>, terms: seq<string>, book: Option<string>, n: nat, h: Hit)
    requires PositiveAboveOne(ln) && n <= |chapters| == |texts|
    ensures h in Hits(ln, chapters, texts, terms, book, n) <==> exists i :: i < n && IsHit(ln, chapters, texts, terms, book, i, h)
  {
    if n > 0 {
      HitsAreExact(ln, chapters, texts, terms, book, n - 1, h);
      ScoresIffShares(ln, texts, n - 1, terms);
      assert h in Hits(ln, chapters, texts, terms, book, n) <==>
        h in Hits(ln, chapters, texts, terms, book, n - 1) || IsHit(ln, chapters, texts, terms, book, n - 1, h);
    }
  }

  /** What a search ranks: exactly the book-matching chapters that share a query term, each with its
      naive score, best first; and with distinct ids that is the only such list. */
  lemma RelevantIsExact(ln: Log, chapters: seq<Chapter>, texts: seq<Tokens>, terms: seq<string>, book: Option<string>, other: seq<Hit>)
    requires PositiveAboveOne(ln) && |chapters| == |texts|
    ensures var ranking := Relevant(ln, chapters, texts, terms, book);
            && Ranked(ranking)
            && (forall h :: h in ranking <==> exists i :: i < |chapters| && IsHit(ln, chapters, texts, terms, book, i, h))
            && (HitIdsDiffer(ranking) && Ranked(other) && multiset(other) == multiset(ranking) ==> other == ranking)
  {
    var hits := Hits(ln, chapters, texts, terms, book, |chapters|);
    var ranking := Relevant(ln, chapters, texts, terms, book);
    RankingSorts(hits);
    forall h ensures h in ranking <==> exists i :: i < |chapters| && IsHit(ln, chapters, texts, terms, book, i, h) {
      HitsAreExact(ln, chapters, texts, terms, book, |chapters|, h);
      assert h in ranking <==> h in multiset(ranking);
    }
    if HitIdsDiffer(ranking) && Ranked(other) && multiset(other) == multiset(ranking) {
      RankingIsUnique(ranking, other);
    }
  }

  predicate ChapterIdsDiffer(chapters: seq<Chapter>) {
    forall i, j :: 0 <= i < j < |chapters| ==> ProblemId(chapters[i]) != ProblemId(chapters[j])
  }

  lemma {:induction false} HitsHaveDistinctIds(ln: Log, chapters: seq<Chapter>, texts: seq<Tokens>, terms: seq<string>, book: Option<string>, n: nat)
    requires n <= |chapters| == |texts| && ChapterIdsDiffer(chapters)
    ensures HitIdsDiffer(Hits(ln, chapters, texts, terms, book, n))
    ensures forall h :: h in Hits(ln, chapters, texts, terms, book, n) ==> exists i :: 0 <= i < n && h.chapter == chapters[i]
  {
    if n > 0 {
      HitsHaveDistinctIds(ln, chapters, texts, terms, book, n - 1);
      var before := Hits(ln, chapters, texts, terms, book, n - 1);
      forall k | 0 <= k < |before| ensures ProblemId(before[k].chapter) != ProblemId(chapters[n - 1]) {
        assert before[k] in before;
      }
    }
  }

  lemma {:induction false} InsertKeepsIds(h: Hit, ranked: seq<Hit>)
    requires HitIdsDiffer(ranked) && forall k :: 0 <= k < |ranked| ==> ProblemId(ranked[k].chapter) != ProblemId(h.chapter)
    ensures HitIdsDiffer(Insert(h, ranked))
  {
    if ranked != [] && !Above(h, ranked[0]) {
      InsertKeepsIds(h, ranked[1..]);
      var rest := Insert(h, ranked[1..]);
      forall j | 0 <= j < |rest| ensures ProblemId(rest[j].chapter) != ProblemId(ranked[0].chapter) {
        InInsert(h, ranked[1..], rest[j]);
      }
    }
  }

  lemma {:induction false} RankingKeepsIds(hits: seq<Hit>)
    requires HitIdsDiffer(hits)
    ensures HitIdsDiffer(Ranking(hits))
  {
    if hits != [] {
      var init, h := hits[..|hits| - 1], hits[|hits| - 1];
      RankingKeepsIds(init);
      RankingSorts(init);
      forall k | 0 <= k < |Ranking(init)| ensures ProblemId(Ranking(init)[k].chapter) != ProblemId(h.chapter) {
        assert Ranking(init)[k] in multiset(init);
      }
      InsertKeepsIds(h, Ranking(init));
    }
  }

  lemma RelevantIdsDiffer(ln: Log, chapters: seq<Chapter>, texts: seq<Tokens>, terms: seq<string>, book: Option<string>)
    requires |chapters| == |texts| && ChapterIdsDiffer(chapters)
    ensures HitIdsDiffer(Relevant(ln, chapters, texts, terms, book))
  {
    HitsHaveDistinctIds(ln, chapters, texts, terms, book, |chapters|);
    RankingKeepsIds(Hits(ln, chapters, texts, terms, book, |chapters|));
  }
}
