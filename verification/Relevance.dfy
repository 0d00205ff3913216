/** What the score rewards (grounding_mcp/search.py), and in what order ties stand. */
module Relevance {
  import opened Wrappers
  import opened Builtins
  import opened Corpus
  import opened CorpusIndex
  import opened Search

  // ---------------------------------------------------------------- the inverse document frequency

  ghost predicate Increasing(ln: Log) {
    forall x: real, y: real {:trigger ln(x), ln(y)} :: 0.0 < x < y ==> ln(x) < ln(y)
  }

  lemma Reassociate(q: real, d: real, x: real, e: real)
    requires q * d == x
    ensures q * (d * e) == x * e
  {
  }

  /** Fractions compare as their cross products do. */
  lemma CrossLess(a: real, b: real, c: real, d: real)
    requires b > 0.0 && d > 0.0 && a * d < c * b
    ensures a / b < c / d
  {
    var p, q := a / b, c / d;
    assert p * b == a && q * d == c;
    Reassociate(p, b, a, d);
    Reassociate(q, d, c, b);
    assert b * d == d * b && b * d > 0.0;
    assert p >= q ==> p * (b * d) >= q * (b * d);
  }

  lemma TimesLess(x: real, y: real, z: real)
    requires x < y && z > 0.0
    ensures x * z < y * z && z * x < z * y
  {
  }

  lemma LargerFraction(a: real, b: real, c: real, d: real)
    requires a > c > 0.0 && 0.0 < b < d
    ensures c / d < a / b
  {
    TimesLess(c, a, b);
    TimesLess(b, d, a);
    CrossLess(c, d, a, b);
  }

  /** The rarer term weighs more. */
  lemma RarerWeighsMore(ln: Log, n: nat, rare: nat, common: nat)
    requires Increasing(ln) && 0 < rare < common <= n
    ensures Idf(ln, n, rare) > Idf(ln, n, common)
  {
    LargerFraction((n - rare) as real + 0.5, rare as real + 0.5, (n - common) as real + 0.5, common as real + 0.5);
    DivPositive((n - common) as real + 0.5, common as real + 0.5);
  }

  /** A term that no document holds weighs nothing, and a document is of normal length when none has any. */
  lemma UnknownTerms(ln: Log, n: nat, len: nat)
    ensures Idf(ln, n, 0) == 0.0 && Norm(len, 0.0) == 1.0 && Average(len, 0) == 0.0
  {
  }

  /** One and the odds are the ratio of n + 1 to df + 0.5. */
  lemma IdfIsLogOfRatio(ln: Log, n: nat, df: nat)
    requires 0 < df <= n
    ensures Idf(ln, n, df) == ln((n + 1) as real / (df as real + 0.5))
  {
    OnePlus((n - df) as real + 0.5, df as real + 0.5);
    assert (n - df) as real + 0.5 + (df as real + 0.5) == (n + 1) as real;
  }

  lemma OnePlus(x: real, y: real)
    requires y > 0.0
    ensures 1.0 + x / y == (x + y) / y
  {
    var q := x / y;
    assert q * y == x;
    assert (1.0 + q) * y == x + y;
    Quotient(1.0 + q, y, x + y);
  }

  lemma Quotient(q: real, y: real, x: real)
    requires y > 0.0 && q * y == x
    ensures x / y == q
  {
    var p := x / y;
    assert p * y == x;
    assert (p - q) * y == 0.0;
  }

  // ---------------------------------------------------------------- the share of one term

  function Weight(f: nat, len: nat, average: real): real
    requires average >= 0.0 && f > 0
  {
    (f as real * 2.5) / (f as real + 1.5 * Norm(len, average))
  }

  lemma ProductOverSame(x: real, y: real, z: real)
    requires z > 0.0
    ensures (x * y) / z == x * (y / z)
  {
    var q := y / z;
    assert q * z == y;
    assert (x * q) * z == x * y;
  }

  lemma ShareIsWeighted(idf: real, f: nat, len: nat, average: real)
    requires average >= 0.0 && f > 0
    ensures Share(idf, f, len, average) == idf * Weight(f, len, average) && Weight(f, len, average) > 0.0
  {
    ProductOverSame(idf, f as real * 2.5, f as real + 1.5 * Norm(len, average));
    DivPositive(f as real * 2.5, f as real + 1.5 * Norm(len, average));
  }

  /** A larger idf gives a larger share. */
  lemma ShareRisesWithIdf(less: real, more: real, f: nat, len: nat, average: real)
    requires less < more && f > 0 && average >= 0.0
    ensures Share(less, f, len, average) < Share(more, f, len, average)
  {
    ShareIsWeighted(less, f, len, average);
    ShareIsWeighted(more, f, len, average);
    TimesLess(less, more, Weight(f, len, average));
  }

  lemma Complement(x: real, c: real)
    requires x > 0.0 && c > 0.0
    ensures x / (x + c) == 1.0 - c / (x + c)
  {
    Quotient(1.0 - c / (x + c), x + c, x);
  }

  lemma Saturates(x: real, y: real, c: real)
    requires 0.0 < x < y && c > 0.0
    ensures x / (x + c) < y / (y + c)
  {
    Complement(x, c);
    Complement(y, c);
    SameOverLess(c, x + c, y + c);
  }

  lemma BelowOne(x: real, c: real)
    requires x > 0.0 && c > 0.0
    ensures x / (x + c) < 1.0
  {
    CrossLess(x, x + c, 1.0, 1.0);
  }

  lemma WeightSaturates(f: nat, len: nat, average: real)
    requires average >= 0.0 && f > 0
    ensures Weight(f, len, average) == 2.5 * (f as real / (f as real + 1.5 * Norm(len, average)))
  {
    ProductOverSame(2.5, f as real, f as real + 1.5 * Norm(len, average));
  }

  lemma WeightRises(less: nat, more: nat, len: nat, average: real)
    requires 0 < less < more && average >= 0.0
    ensures Weight(less, len, average) < Weight(more, len, average)
  {
    WeightSaturates(more, len, average);
    WeightSaturates(less, len, average);
    Saturates(less as real, more as real, 1.5 * Norm(len, average));
  }

  lemma WeightIsBelow(f: nat, len: nat, average: real)
    requires f > 0 && average >= 0.0
    ensures Weight(f, len, average) < 2.5
  {
    WeightSaturates(f, len, average);
    BelowOne(f as real, 1.5 * Norm(len, average));
  }

  /** More occurrences give a larger share, below two and a half times the idf. */
  lemma ShareRisesWithCount(idf: real, less: nat, more: nat, len: nat, average: real)
    requires idf > 0.0 && less < more && average >= 0.0
    ensures Share(idf, less, len, average) < Share(idf, more, len, average) < 2.5 * idf
  {
    ShareIsWeighted(idf, more, len, average);
    WeightIsBelow(more, len, average);
    TimesLess(Weight(more, len, average), 2.5, idf);
    if less == 0 {
      TimesLess(0.0, Weight(more, len, average), idf);
    } else {
      ShareIsWeighted(idf, less, len, average);
      WeightRises(less, more, len, average);
      TimesLess(Weight(less, len, average), Weight(more, len, average), idf);
    }
  }

  lemma NormRises(less: nat, more: nat, average: real)
    requires less < more && average > 0.0
    ensures Norm(less, average) < Norm(more, average)
  {
    TimesLess(less as real, more as real, average);
    CrossLess(less as real, average, more as real, average);
  }

  /** A longer document gives a smaller share. */
  lemma ShareFallsWithLength(idf: real, f: nat, less: nat, more: nat, average: real)
    requires idf > 0.0 && f > 0 && less < more && average > 0.0
    ensures Share(idf, f, less, average) > Share(idf, f, more, average)
  {
    NormRises(less, more, average);
    ShareIsWeighted(idf, f, less, average);
    ShareIsWeighted(idf, f, more, average);
    SameOverLess(f as real * 2.5, f as real + 1.5 * Norm(less, average), f as real + 1.5 * Norm(more, average));
    TimesLess(Weight(f, more, average), Weight(f, less, average), idf);
  }

  lemma SameOverLess(x: real, y: real, z: real)
    requires x > 0.0 && 0.0 < y < z
    ensures x / y > x / z
  {
    TimesLess(y, z, x);
    CrossLess(x, z, x, y);
  }

  /** One occurrence in a document of average length is worth the idf itself; in one of twice that length
      two and a half parts in 3.625. */
  lemma ShareOfOne(idf: real, len: nat, average: real)
    requires average > 0.0
    ensures len as real == average ==> Share(idf, 1, len, average) == idf
    ensures len as real == 2.0 * average ==> Share(idf, 1, len, average) == idf * (2.5 / 3.625)
  {
    ShareIsWeighted(idf, 1, len, average);
    if len as real == average { assert len as real / average == 1.0; }
    if len as real == 2.0 * average { Quotient(2.0, average, len as real); }
  }

  // ---------------------------------------------------------------- the counts behind it

  /** How often a term stands in a text. */
  lemma {:induction false} CountIsMultiplicity(text: Tokens, t: string)
    ensures Count(text, t) == multiset(text)[t]
  {
    if text != [] {
      CountIsMultiplicity(text[..|text| - 1], t);
      assert text == text[..|text| - 1] + [text[|text| - 1]];
    }
  }

  function Holding(texts: seq<Tokens>, t: string): set<int> {
    set i | 0 <= i < |texts| && t in texts[i]
  }

  /** In how many texts it stands. */
  lemma {:induction false} DocFreqCountsTexts(texts: seq<Tokens>, t: string)
    ensures DocFreq(texts, t) == |Holding(texts, t)|
  {
    if texts != [] {
      var init, n := texts[..|texts| - 1], |texts| - 1;
      DocFreqCountsTexts(init, t);
      assert Holding(texts, t) == Holding(init, t) + if t in texts[n] then {n} else {};
    }
  }

  lemma {:induction false} TotalOfSame(texts: seq<Tokens>, len: nat)
    requires forall i :: 0 <= i < |texts| ==> |texts[i]| == len
    ensures TotalLength(texts) == |texts| * len
  {
    if texts != [] { TotalOfSame(texts[..|texts| - 1], len); }
  }

  lemma {:induction false} TotalOfConcat(a: seq<Tokens>, b: seq<Tokens>)
    ensures TotalLength(a + b) == TotalLength(a) + TotalLength(b)
  {
    if b == [] {
      assert a + b == a;
    } else {
      TotalOfConcat(a, b[..|b| - 1]);
      assert (a + b)[..|a + b| - 1] == a + b[..|b| - 1];
    }
  }

  lemma TimesOver(n: nat, len: nat)
    requires n > 0
    ensures (n * len) as real / n as real == len as real
  {
    assert (n * len) as real == n as real * len as real;
    Quotient(len as real, n as real, (n * len) as real);
  }

  lemma AverageTimes(total: nat, n: nat)
    requires n > 0
    ensures Average(total, n) * n as real == total as real
  {
  }

  /** The average length, of texts of one length that length. */
  lemma AverageLength(texts: seq<Tokens>, len: nat)
    requires texts != []
    ensures (forall i :: 0 <= i < |texts| ==> |texts[i]| == len) ==> Average(TotalLength(texts), |texts|) == len as real
  {
    if forall i :: 0 <= i < |texts| ==> |texts[i]| == len {
      TotalOfSame(texts, len);
      TimesOver(|texts|, len);
    }
  }

  /** Each query term counts as often as the query names it. */
  lemma {:induction false} ScoreAdds(ln: Log, texts: seq<Tokens>, text: Tokens, terms: seq<string>, more: seq<string>)
    ensures Score(ln, texts, text, terms + more) == Score(ln, texts, text, terms) + Score(ln, texts, text, more)
  {
    if more == [] {
      assert terms + more == terms;
    } else {
      ScoreAdds(ln, texts, text, terms, more[..|more| - 1]);
      assert (terms + more)[..|terms + more| - 1] == terms + more[..|more| - 1];
    }
  }

  // ---------------------------------------------------------------- two documents

  /** The part of a score that the other terms make. */
  function OtherShares(ln: Log, texts: seq<Tokens>, text: Tokens, terms: seq<string>, t: string, u: string): real {
    if terms == [] then 0.0
    else
      var x := terms[|terms| - 1];
      OtherShares(ln, texts, text, terms[..|terms| - 1], t, u)
      + if x == t || x == u then 0.0
        else Share(Idf(ln, |texts|, DocFreq(texts, x)), Count(text, x), |text|, Average(TotalLength(texts), |texts|))
  }

  function ShareOf(ln: Log, texts: seq<Tokens>, text: Tokens, x: string): real {
    Share(Idf(ln, |texts|, DocFreq(texts, x)), Count(text, x), |text|, Average(TotalLength(texts), |texts|))
  }

  function Times(n: nat, x: real): real {
    if n == 0 then 0.0 else Times(n - 1, x) + x
  }

  lemma {:induction false} TimesIsStrict(n: nat, x: real, y: real)
    requires n > 0 && x < y
    ensures Times(n, x) < Times(n, y)
  {
    if n > 1 { TimesIsStrict(n - 1, x, y); }
  }

  lemma {:induction false} TimesZero(n: nat)
    ensures Times(n, 0.0) == 0.0
  {
    if n > 0 { TimesZero(n - 1); }
  }

  lemma CountSnoc(terms: seq<string>, t: string, share: real)
    requires terms != []
    ensures var init, x := terms[..|terms| - 1], terms[|terms| - 1];
            Times(Count(terms, t), share) == Times(Count(init, t), share) + if x == t then share else 0.0
  {
  }

  /** A score is the sum of its terms' shares, in whatever order they are counted. */
  lemma {:induction false} ScoreSplits(ln: Log, texts: seq<Tokens>, text: Tokens, terms: seq<string>, t: string, u: string)
    requires t != u
    ensures Score(ln, texts, text, terms)
         == OtherShares(ln, texts, text, terms, t, u)
            + Times(Count(terms, t), ShareOf(ln, texts, text, t)) + Times(Count(terms, u), ShareOf(ln, texts, text, u))
  {
    if terms == [] {
      assert Score(ln, texts, text, terms) == 0.0 == OtherShares(ln, texts, text, terms, t, u);
    } else {
      var init, x := terms[..|terms| - 1], terms[|terms| - 1];
      ScoreSplits(ln, texts, text, init, t, u);
      CountSnoc(terms, t, ShareOf(ln, texts, text, t));
      CountSnoc(terms, u, ShareOf(ln, texts, text, u));
      assert Score(ln, texts, text, terms) == Score(ln, texts, text, init) + ShareOf(ln, texts, text, x);
    }
  }

  /** Alike but for two terms. */
  ghost predicate Alike(a: Tokens, b: Tokens, t: string, u: string) {
    |a| == |b| && forall x :: x != t && x != u ==> Count(a, x) == Count(b, x)
  }

  lemma {:induction false} AlikeElsewhere(ln: Log, texts: seq<Tokens>, a: Tokens, b: Tokens, terms: seq<string>, t: string, u: string)
    requires Alike(a, b, t, u)
    ensures OtherShares(ln, texts, a, terms, t, u) == OtherShares(ln, texts, b, terms, t, u)
  {
    if terms != [] { AlikeElsewhere(ln, texts, a, b, terms[..|terms| - 1], t, u); }
  }

  /** Two documents alike but for this, that one holds a rarer query term once and the other a commoner one
      once; the query asks for both equally often. */
  ghost predicate OneHoldsRarer(texts: seq<Tokens>, i: nat, j: nat, terms: seq<string>, rare: string, common: string) {
    && i < |texts| && j < |texts| && Alike(texts[i], texts[j], rare, common)
    && Count(texts[i], rare) == 1 && Count(texts[i], common) == 0
    && Count(texts[j], rare) == 0 && Count(texts[j], common) == 1
    && DocFreq(texts, rare) < DocFreq(texts, common)
    && Count(terms, rare) == Count(terms, common) > 0
  }

  lemma RarerSharesMore(ln: Log, texts: seq<Tokens>, i: nat, j: nat, terms: seq<string>, rare: string, common: string)
    requires Increasing(ln) && OneHoldsRarer(texts, i, j, terms, rare, common)
    ensures ShareOf(ln, texts, texts[i], rare) > ShareOf(ln, texts, texts[j], common)
    ensures ShareOf(ln, texts, texts[i], common) == 0.0 == ShareOf(ln, texts, texts[j], rare)
  {
    CountIsPositiveIff(texts[i], rare);
    DocFreqIsPositive(texts, i, rare);
    RarerWeighsMore(ln, |texts|, DocFreq(texts, rare), DocFreq(texts, common));
    ShareRisesWithIdf(Idf(ln, |texts|, DocFreq(texts, common)), Idf(ln, |texts|, DocFreq(texts, rare)), 1, |texts[i]|,
                      Average(TotalLength(texts), |texts|));
  }

  lemma RarerScoresHigher(ln: Log, texts: seq<Tokens>, i: nat, j: nat, terms: seq<string>, rare: string, common: string)
    requires Increasing(ln) && OneHoldsRarer(texts, i, j, terms, rare, common)
    ensures Score(ln, texts, texts[i], terms) > Score(ln, texts, texts[j], terms)
  {
    var n := Count(terms, rare);
    ScoreSplits(ln, texts, texts[i], terms, rare, common);
    ScoreSplits(ln, texts, texts[j], terms, rare, common);
    AlikeElsewhere(ln, texts, texts[i], texts[j], terms, rare, common);
    RarerSharesMore(ln, texts, i, j, terms, rare, common);
    TimesIsStrict(n, ShareOf(ln, texts, texts[j], common), ShareOf(ln, texts, texts[i], rare));
    TimesZero(n);
  }

  /** Whatever is scored higher stands before. */
  lemma HigherStandsBefore(hits: seq<Hit>, a: Hit, b: Hit)
    requires Ranked(hits) && a in hits && b in hits && a.score > b.score
    ensures exists p, q :: 0 <= p < q < |hits| && hits[p] == a && hits[q] == b
  {
    var p :| 0 <= p < |hits| && hits[p] == a;
    var q :| 0 <= q < |hits| && hits[q] == b;
    assert Above(hits[p], hits[q]);
  }

  /** So of two such chapters the one with the rarer term is ranked above the other. */
  lemma RarerRanksAbove(ln: Log, chapters: seq<Chapter>, texts: seq<Tokens>, terms: seq<string>, book: Option<string>,
                        i: nat, j: nat, rare: string, common: string)
    requires PositiveAboveOne(ln) && Increasing(ln) && |chapters| == |texts|
    requires OneHoldsRarer(texts, i, j, terms, rare, common)
    requires book.Some? ==> chapters[i].book == book.value && chapters[j].book == book.value
    ensures var ranking := Relevant(ln, chapters, texts, terms, book);
            exists p, q :: 0 <= p < q < |ranking| && ranking[p].chapter == chapters[i] && ranking[q].chapter == chapters[j]
                           && ranking[p].score == Score(ln, texts, texts[i], terms)
                           && ranking[q].score == Score(ln, texts, texts[j], terms)
  {
    var ranking := Relevant(ln, chapters, texts, terms, book);
    var a, b := Hit(chapters[i], Score(ln, texts, texts[i], terms)), Hit(chapters[j], Score(ln, texts, texts[j], terms));
    RarerScoresHigher(ln, texts, i, j, terms, rare, common);
    RelevantIsExact(ln, chapters, texts, terms, book, []);
    SharesTerm(texts[i], terms, rare);
    SharesTerm(texts[j], terms, common);
    assert IsHit(ln, chapters, texts, terms, book, i, a);
    assert IsHit(ln, chapters, texts, terms, book, j, b);
    HigherStandsBefore(ranking, a, b);
  }

  lemma SharesTerm(text: Tokens, terms: seq<string>, t: string)
    requires Count(text, t) > 0 && Count(terms, t) > 0
    ensures Shares(text, terms)
  {
    CountIsPositiveIff(text, t);
    CountIsPositiveIff(terms, t);
  }

  // ---------------------------------------------------------------- ties

  ghost predicate PrecedesAt(a: string, b: string, k: nat) {
    k < |b| && k <= |a| && a[..k] == b[..k] && (k == |a| || a[k] < b[k])
  }

  /** One string comes before another: they agree up to where the first ends or has the smaller character. */
  ghost predicate Precedes(a: string, b: string) {
    exists k: nat :: PrecedesAt(a, b, k)
  }

  lemma PrecedesStep(a: string, b: string, k: nat)
    requires a != "" && b != "" && a[0] == b[0]
    ensures PrecedesAt(a, b, k + 1) <==> PrecedesAt(a[1..], b[1..], k)
  {
    if k < |b[1..]| && k <= |a[1..]| {
      assert a[..k + 1] == [a[0]] + a[1..][..k] && b[..k + 1] == [b[0]] + b[1..][..k];
      assert a[1..][..k] == a[..k + 1][1..] && b[1..][..k] == b[..k + 1][1..];
    }
  }

  lemma PrecedesFirst(a: string, b: string, k: nat)
    requires a != "" && b != "" && PrecedesAt(a, b, k)
    ensures if a[0] == b[0] then k > 0 else k == 0 && a[0] < b[0]
  {
    assert k > 0 ==> a[..k][0] == b[..k][0];
  }

  lemma {:induction false} LessIff(a: string, b: string)
    ensures Less(a, b) <==> Precedes(a, b)
  {
    if a == "" || b == "" || a[0] != b[0] {
      assert Less(a, b) ==> PrecedesAt(a, b, 0);
      forall k: nat ensures PrecedesAt(a, b, k) ==> Less(a, b) {
        if a != "" && PrecedesAt(a, b, k) { PrecedesFirst(a, b, k); }
      }
    } else {
      LessIff(a[1..], b[1..]);
      forall k: nat ensures PrecedesAt(a[1..], b[1..], k) ==> Precedes(a, b) {
        PrecedesStep(a, b, k);
      }
      forall k: nat ensures PrecedesAt(a, b, k) ==> Precedes(a[1..], b[1..]) {
        if PrecedesAt(a, b, k) {
          PrecedesFirst(a, b, k);
          PrecedesStep(a, b, k - 1);
        }
      }
    }
  }

  /** The ranking runs from the highest score down; among equal scores the later id comes first. */
  lemma RankingRuns(ln: Log, chapters: seq<Chapter>, texts: seq<Tokens>, terms: seq<string>, book: Option<string>, p: nat, q: nat)
    requires |chapters| == |texts|
    requires p < q < |Relevant(ln, chapters, texts, terms, book)|
    ensures var ranking := Relevant(ln, chapters, texts, terms, book);
            || ranking[p].score > ranking[q].score
            || (ranking[p].score == ranking[q].score && !Precedes(ProblemId(ranking[p].chapter), ProblemId(ranking[q].chapter)))
  {
    var ranking := Relevant(ln, chapters, texts, terms, book);
    RankingSorts(Hits(ln, chapters, texts, terms, book, |chapters|));
    LessIff(ProblemId(ranking[p].chapter), ProblemId(ranking[q].chapter));
  }

  // ---------------------------------------------------------------- tokens

  lemma LowerTextSnoc(a: string, b: string)
    requires b != ""
    ensures var c := b[|b| - 1]; a + b == (a + b[..|b| - 1]) + [c]
    ensures var c := b[|b| - 1]; LowerText(a + b) == LowerText(a + b[..|b| - 1]) + LowerChar(c)
  {
    assert (a + b)[..|a + b| - 1] == a + b[..|b| - 1];
  }

  lemma {:induction false} LowerTextConcat(a: string, b: string)
    ensures LowerText(a + b) == LowerText(a) + LowerText(b)
  {
    if b == "" {
      assert a + b == a;
    } else {
      var init, last := b[..|b| - 1], LowerChar(b[|b| - 1]);
      LowerTextConcat(a, init);
      LowerTextSnoc(a, b);
      Regroup(LowerText(a), LowerText(init), last);
    }
  }

  lemma LowerTextSpace(a: string)
    ensures LowerText(a + " ") == LowerText(a) + " "
  {
    assert (a + " ")[..|a|] == a;
  }

  /** Texts set apart by a space are tokenised apart. */
  lemma TokenizeConcat(a: string, b: string)
    ensures Tokenize(a + " " + b) == Tokenize(a) + Tokenize(b)
  {
    LowerTextConcat(a + " ", b);
    LowerTextSpace(a);
    RunsConcat(LowerText(a), ' ', LowerText(b), IsTokenChar);
  }

  lemma {:induction false} CountConcat(a: Tokens, b: Tokens, t: string)
    ensures Count(a + b, t) == Count(a, t) + Count(b, t)
  {
    if b == [] {
      assert a + b == a;
    } else {
      CountConcat(a, b[..|b| - 1], t);
      assert (a + b)[..|a + b| - 1] == a + b[..|b| - 1];
    }
  }

  /** A chapter is indexed by its title, counted three times, and by what is visible of it. */
  lemma TitleCountsThrice(c: Chapter, docs: map<string, ChapterDoc>, t: string)
    ensures var visible := match Lookup(docs, ProblemId(c)) case Some(doc) => doc.visible case None => "";
            Count(Tokenize(IndexedText(c, docs)), t) == 3 * Count(Tokenize(c.title), t) + Count(Tokenize(visible), t)
  {
    var visible := match Lookup(docs, ProblemId(c)) case Some(doc) => doc.visible case None => "";
    var once := c.title + " " + visible;
    var twice := c.title + " " + once;
    assert IndexedText(c, docs) == c.title + " " + twice;
    TokenizeConcat(c.title, twice);
    TokenizeConcat(c.title, once);
    TokenizeConcat(c.title, visible);
    CountConcat(Tokenize(c.title), Tokenize(twice), t);
    CountConcat(Tokenize(c.title), Tokenize(once), t);
    CountConcat(Tokenize(c.title), Tokenize(visible), t);
  }

  lemma {:induction false} LowerTextOfWord(w: string)
    requires IsWord(w, IsAlnum) || w == ""
    ensures LowerText(w) == Lowered(w)
  {
    if w != "" {
      assert w[..|w| - 1] == "" || IsWord(w[..|w| - 1], IsAlnum);
      LowerTextOfWord(w[..|w| - 1]);
      assert LowerChar(w[|w| - 1]) == [Lower(w[|w| - 1])];
    }
  }

  lemma TokensOfOne(c: char, lower: string, first: char)
    requires LowerChar(c) == lower && (lower == [first] || (|lower| == 2 && lower[0] == first && !IsTokenChar(lower[1])))
    requires IsTokenChar(first)
    ensures Tokenize([c]) == [[first]]
  {
    assert [c][..0] == "" && LowerText([c]) == lower;
    RunsOfWord([first], IsTokenChar);
    if |lower| == 2 { assert lower[..1] == [first]; }
  }

  lemma NoTokens(c: char)
    requires LowerChar(c) == [c] && !IsTokenChar(c)
    ensures Tokenize([c]) == []
  {
    assert [c][..0] == "" && LowerText([c]) == [c];
    RunsSnoc("", c, IsTokenChar);
    assert "" + [c] == [c];
  }

  /** Beyond ASCII the Kelvin sign is the token k and the dotted capital I the token i; every other
      character there sets tokens apart. */
  lemma TokensBeyondAscii(c: char)
    requires c as int >= 128
    ensures c as int == 0x212a ==> Tokenize([c]) == ["k"]
    ensures c as int == 0x130 ==> Tokenize([c]) == ["i"]
    ensures c as int !in {0x212a, 0x130} ==> Tokenize([c]) == []
  {
    if c as int == 0x212a {
      TokensOfOne(c, "k", 'k');
    } else if c as int == 0x130 {
      TokensOfOne(c, "i\U{0307}", 'i');
    } else {
      NoTokens(c);
    }
  }

  lemma TokenizeWord(w: string)
    requires IsWord(w, IsAlnum)
    ensures Tokenize(w) == [Lowered(w)]
  {
    LowerTextOfWord(w);
    RunsOfWord(Lowered(w), IsTokenChar);
  }

  lemma TokenizeMore(head: string, w: string, tokens: Tokens)
    requires Tokenize(head) == tokens && IsWord(w, IsAlnum)
    ensures Tokenize(head + " " + w) == tokens + [Lowered(w)]
  {
    TokenizeConcat(head, w);
    TokenizeWord(w);
  }

  /** Words of letters and digits are found again, in lower case. */
  lemma {:induction false} TokenizeUndoesJoin(words: seq<string>)
    requires forall k :: 0 <= k < |words| ==> IsWord(words[k], IsAlnum)
    ensures Tokenize(Join(words, " ")) == AllLowered(words)
  {
    if |words| == 1 {
      TokenizeWord(words[0]);
    } else if |words| > 1 {
      var init := words[..|words| - 1];
      TokenizeUndoesJoin(init);
      TokenizeMore(Join(init, " "), words[|words| - 1], AllLowered(init));
      JoinLast(words, " ");
      AllLoweredSnoc(words);
    }
  }
}
