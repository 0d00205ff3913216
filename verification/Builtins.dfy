/** The Python built-ins that several parts of the repository lean on. */
module Builtins {
  import opened Wrappers

  /** int() of a float: truncation toward zero. */
  function Trunc(x: real): int {
    if x >= 0.0 then x.Floor else -((-x).Floor)
  }

  /** The code points that str.strip removes. */
  predicate IsSpace(c: char) {
    var p := c as int;
    || 0x09 <= p <= 0x0d || 0x1c <= p <= 0x20 || p in {0x85, 0xa0, 0x1680, 0x2028, 0x2029, 0x202f, 0x205f, 0x3000}
    || 0x2000 <= p <= 0x200a
  }

  predicate IsBlank(s: string) {
    forall c :: c in s ==> IsSpace(c)
  }

  /** separator.join(parts). */
  function Join(parts: seq<string>, separator: string): string {
    if parts == [] then ""
    else if |parts| == 1 then parts[0]
    else Join(parts[..|parts| - 1], separator) + separator + parts[|parts| - 1]
  }

  lemma JoinLast(words: seq<string>, separator: string)
    requires |words| > 1
    ensures Join(words, separator) == Join(words[..|words| - 1], separator) + separator + words[|words| - 1]
  {
  }

  /** s.split(separator), for a separator of one character. */
  function Split(s: string, separator: char): (parts: seq<string>)
    ensures parts != []
  {
    if s == "" then [""]
    else
      var before, c := Split(s[..|s| - 1], separator), s[|s| - 1];
      if c == separator then before + [""]
      else before[..|before| - 1] + [before[|before| - 1] + [c]]
  }

  lemma {:induction false} SplitAppend(a: string, separator: char, b: string)
    requires separator !in b
    ensures Split(a + [separator] + b, separator) == Split(a, separator) + [b]
  {
    var s := a + [separator] + b;
    if b == "" {
      assert s[..|s| - 1] == a;
    } else {
      SplitAppend(a, separator, b[..|b| - 1]);
      assert s[..|s| - 1] == a + [separator] + b[..|b| - 1];
      assert b == b[..|b| - 1] + [b[|b| - 1]];
    }
  }

  lemma {:induction false} SplitOne(b: string, separator: char)
    requires separator !in b
    ensures Split(b, separator) == [b]
  {
    if b != "" {
      SplitOne(b[..|b| - 1], separator);
      assert b == b[..|b| - 1] + [b[|b| - 1]];
    }
  }

  /** Splitting undoes joining when no part holds the separator. */
  lemma {:induction false} SplitUndoesJoin(parts: seq<string>, separator: char)
    requires parts != [] && forall i :: 0 <= i < |parts| ==> separator !in parts[i]
    ensures Split(Join(parts, [separator]), separator) == parts
  {
    if |parts| == 1 {
      SplitOne(parts[0], separator);
    } else {
      var init, last := parts[..|parts| - 1], parts[|parts| - 1];
      SplitUndoesJoin(init, separator);
      var head := Join(init, [separator]);
      SplitAppend(head, separator, last);
      assert Join(parts, [separator]) == head + [separator] + last;
      assert init + [last] == parts;
    }
  }

  /** And joining always undoes splitting, into parts that hold no separator. */
  lemma {:induction false} JoinUndoesSplit(s: string, separator: char)
    ensures Join(Split(s, separator), [separator]) == s
    ensures forall i :: 0 <= i < |Split(s, separator)| ==> separator !in Split(s, separator)[i]
  {
    if s != "" {
      var before := Split(s[..|s| - 1], separator);
      JoinUndoesSplit(s[..|s| - 1], separator);
      assert s == s[..|s| - 1] + [s[|s| - 1]];
      assert Split(s, separator)[..|Split(s, separator)| - 1] == if s[|s| - 1] == separator then before else before[..|before| - 1];
    }
  }

  /** re.findall of one character class with +: the maximal runs of kept characters. */
  function Runs(s: string, keep: char -> bool): (runs: seq<string>)
    ensures s != "" && keep(s[|s| - 1]) ==> runs != []
  {
    if s == "" then []
    else
      var before, c := Runs(s[..|s| - 1], keep), s[|s| - 1];
      if !keep(c) then before
      else if |s| >= 2 && keep(s[|s| - 2]) then before[..|before| - 1] + [before[|before| - 1] + [c]]
      else before + [[c]]
  }

  predicate IsWord(w: string, keep: char -> bool) {
    w != "" && forall i :: 0 <= i < |w| ==> keep(w[i])
  }

  lemma {:induction false} RunsOfWord(w: string, keep: char -> bool)
    requires IsWord(w, keep)
    ensures Runs(w, keep) == [w]
  {
    var init := w[..|w| - 1];
    assert w == init + [w[|w| - 1]];
    if init == "" {
      assert Runs(init, keep) == [];
    } else {
      RunsOfWord(init, keep);
    }
  }

  /** What one more character makes of the runs so far. */
  function GrowRuns(runs: seq<string>, inside: bool, kept: bool, c: char): seq<string>
    requires inside ==> runs != []
  {
    if !kept then runs
    else if inside then runs[..|runs| - 1] + [runs[|runs| - 1] + [c]]
    else runs + [[c]]
  }

  predicate EndsInside(s: string, keep: char -> bool) {
    s != "" && keep(s[|s| - 1])
  }

  lemma RunsSnoc(s: string, c: char, keep: char -> bool)
    ensures Runs(s + [c], keep) == GrowRuns(Runs(s, keep), EndsInside(s, keep), keep(c), c)
  {
    assert (s + [c])[..|s|] == s;
  }

  lemma GrowRunsBehind(before: seq<string>, runs: seq<string>, inside: bool, kept: bool, c: char)
    requires inside ==> runs != []
    ensures GrowRuns(before + runs, inside, kept, c) == before + GrowRuns(runs, inside, kept, c)
  {
    if inside {
      assert (before + runs)[..|before + runs| - 1] == before + runs[..|runs| - 1];
    }
  }

  /** A character that is not kept sets runs apart. */
  lemma {:induction false} RunsConcat(a: string, separator: char, b: string, keep: char -> bool)
    requires !keep(separator)
    ensures Runs(a + [separator] + b, keep) == Runs(a, keep) + Runs(b, keep)
  {
    if b == "" {
      RunsSnoc(a, separator, keep);
      assert a + [separator] + b == a + [separator];
    } else {
      var init, c := b[..|b| - 1], b[|b| - 1];
      var head := a + [separator] + init;
      RunsConcat(a, separator, init, keep);
      RunsSnoc(head, c, keep);
      RunsSnoc(init, c, keep);
      assert EndsInside(head, keep) == EndsInside(init, keep);
      GrowRunsBehind(Runs(a, keep), Runs(init, keep), EndsInside(init, keep), keep(c), c);
      assert b == init + [c] && a + [separator] + b == head + [c];
    }
  }

  lemma RunsAppend(s: string, separator: char, w: string, keep: char -> bool)
    requires !keep(separator) && IsWord(w, keep)
    ensures Runs(s + [separator] + w, keep) == Runs(s, keep) + [w]
  {
    RunsConcat(s, separator, w, keep);
    RunsOfWord(w, keep);
  }

  /** Words joined by a character that is not kept are found again, as they were. */
  lemma {:induction false} RunsUndoJoin(words: seq<string>, separator: char, keep: char -> bool)
    requires !keep(separator) && forall k :: 0 <= k < |words| ==> IsWord(words[k], keep)
    ensures Runs(Join(words, [separator]), keep) == words
  {
    if |words| == 1 {
      RunsOfWord(words[0], keep);
    } else if |words| > 1 {
      var init, last := words[..|words| - 1], words[|words| - 1];
      RunsUndoJoin(init, separator, keep);
      RunsAppend(Join(init, [separator]), separator, last, keep);
      assert Join(words, [separator]) == Join(init, [separator]) + [separator] + last;
      assert init + [last] == words;
    }
  }

  predicate IsDigit(c: char) { '0' <= c <= '9' }

  /** isalnum on ASCII. */
  predicate IsAlnum(c: char) { IsDigit(c) || 'a' <= c <= 'z' || 'A' <= c <= 'Z' }

  /** lower() on ASCII. */
  function Lower(c: char): char {
    if 'A' <= c <= 'Z' then (c as int + 32) as char else c
  }

  function Lowered(s: string): (t: string)
    ensures |t| == |s| && forall i :: 0 <= i < |s| ==> t[i] == Lower(s[i])
  {
    seq(|s|, i requires 0 <= i < |s| => Lower(s[i]))
  }

  function AllLowered(words: seq<string>): seq<string> {
    seq(|words|, k requires 0 <= k < |words| => Lowered(words[k]))
  }

  lemma AllLoweredSnoc(words: seq<string>)
    requires words != []
    ensures AllLowered(words) == AllLowered(words[..|words| - 1]) + [Lowered(words[|words| - 1])]
  {
  }

  predicate EndsWith(s: string, suffix: string) {
    |suffix| <= |s| && s[|s| - |suffix|..] == suffix
  }

  /** Whether a string ends in another. */
  lemma EndsWithIff(s: string, suffix: string)
    ensures EndsWith(s, suffix) <==> exists stem :: s == stem + suffix
  {
    if EndsWith(s, suffix) {
      assert s == s[..|s| - |suffix|] + suffix;
    }
  }

  function RemoveSuffix(s: string, suffix: string): string {
    if EndsWith(s, suffix) then s[..|s| - |suffix|] else s
  }

  /** str.strip() and str.rstrip(). */
  function StripRight(s: string): string {
    if s != "" && IsSpace(s[|s| - 1]) then StripRight(s[..|s| - 1]) else s
  }

  function StripLeft(s: string): string {
    if s != "" && IsSpace(s[0]) then StripLeft(s[1..]) else s
  }

  function Strip(s: string): string {
    StripRight(StripLeft(s))
  }

  /** s.find(c), with None for -1. */
  function FindChar(s: string, c: char): (r: Option<nat>)
    ensures r.Some? ==> r.value < |s|
  {
    if s == "" then None
    else if s[0] == c then Some(0)
    else match FindChar(s[1..], c)
      case Some(k) => Some(k + 1)
      case None => None
  }

  lemma {:induction false} FindCharAt(before: string, c: char, after: string)
    requires c !in before
    ensures FindChar(before + [c] + after, c) == Some(|before|)
  {
    if before != "" {
      FindCharAt(before[1..], c, after);
      assert (before + [c] + after)[1..] == before[1..] + [c] + after;
    }
  }

  /** s.partition(separator): what comes before its first occurrence and what comes after. */
  function Partition(s: string, separator: char): (string, string) {
    match FindChar(s, separator)
    case Some(k) => (s[..k], s[k + 1..])
    case None => (s, "")
  }

  lemma PartitionAt(before: string, separator: char, after: string)
    requires separator !in before
    ensures Partition(before + [separator] + after, separator) == (before, after)
  {
    FindCharAt(before, separator, after);
    var s := before + [separator] + after;
    assert s[..|before|] == before && s[|before| + 1..] == after;
  }

  lemma {:induction false} FindCharParts(s: string, c: char)
    ensures var r := FindChar(s, c); r.Some? ==> s == s[..r.value] + [c] + s[r.value + 1..]
  {
    if s != "" && s[0] != c {
      FindCharParts(s[1..], c);
    }
  }

  // ---------------------------------------------------------------- sets

  lemma SubsetIsNoLarger<T>(a: set<T>, b: set<T>)
    requires a <= b
    ensures |a| <= |b|
  {
    assert b == a + (b - a);
  }
}
