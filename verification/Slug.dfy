/** grounding_mcp/slug.py: from file and directory names to chapter slugs (ASCII names). */
module Slug {
  import opened Builtins

  predicate IsSlugWord(c: char) {
    IsAlnum(c) || c == '_'
  }

  // ---------------------------------------------------------------- order prefixes

  function DigitsAhead(name: string): (n: nat)
    ensures n <= |name|
    ensures forall i :: 0 <= i < n ==> IsDigit(name[i])
    ensures n < |name| ==> !IsDigit(name[n])
  {
    if name != "" && IsDigit(name[0]) then 1 + DigitsAhead(name[1..]) else 0
  }

  /** ^\d+[._-]? removed. */
  function StripOrderPrefix(name: string): string {
    var n := DigitsAhead(name);
    if n == 0 then name
    else if n < |name| && name[n] in "._-" then name[n + 1..]
    else name[n..]
  }

  lemma {:induction false} DigitsAheadOf(digits: string, rest: string)
    requires (forall i :: 0 <= i < |digits| ==> IsDigit(digits[i])) && (rest == "" || !IsDigit(rest[0]))
    ensures DigitsAhead(digits + rest) == |digits|
  {
    if digits == "" {
      assert digits + rest == rest;
    } else {
      DigitsAheadOf(digits[1..], rest);
      assert (digits + rest)[1..] == digits[1..] + rest;
    }
  }

  /** An order prefix is digits and at most one separator; a name that starts with no digit has none. */
  lemma OrderPrefixIsStripped(digits: string, separator: string, rest: string)
    requires forall i :: 0 <= i < |digits| ==> IsDigit(digits[i])
    requires separator in {"", ".", "_", "-"}
    requires separator == "" ==> rest == "" || !(IsDigit(rest[0]) || rest[0] in "._-")
    ensures digits != "" ==> StripOrderPrefix(digits + separator + rest) == rest
    ensures digits == "" && separator == "" ==> StripOrderPrefix(rest) == rest
  {
    assert digits + separator + rest == digits + (separator + rest);
    DigitsAheadOf(digits, separator + rest);
    if digits == "" && separator == "" { assert separator + rest == rest; }
  }

  // ---------------------------------------------------------------- slugify

  /** What the loop has put out after a prefix of the segment. */
  function Scanned(seg: string): string {
    if seg == "" then ""
    else
      var out, c := Scanned(seg[..|seg| - 1]), seg[|seg| - 1];
      if IsSlugWord(c) then out + [Lower(c)]
      else if out != "" && out[|out| - 1] != '-' then out + "-"
      else out
  }

  function SlugOf(seg: string): string {
    RemoveSuffix(Scanned(seg), "-")
  }

  method Slugify(seg: string) returns (s: string)
    ensures s == SlugOf(seg)
  {
    var out := "";
    var lastDash := false;
    for i := 0 to |seg|
      invariant out == Scanned(seg[..i])
      invariant lastDash <==> out != "" && out[|out| - 1] == '-'
    {
      assert seg[..i + 1][..i] == seg[..i];
      var c := seg[i];
      if IsAlnum(c) {
        out := out + [Lower(c)];
        lastDash := false;
      } else if c == '_' {
        out := out + "_";
        lastDash := false;
      } else if !lastDash && out != "" {
        out := out + "-";
        lastDash := true;
      }
    }
    assert seg[..|seg|] == seg;
    s := if out != "" && out[|out| - 1] == '-' then out[..|out| - 1] else out;
  }

  /** The reference: the lower-cased maximal runs of letters, digits and underscores, joined by dashes. */
  function Words(seg: string): seq<string> {
    Runs(Lowered(seg), IsSlugWord)
  }

  lemma LoweredWord(c: char)
    ensures IsSlugWord(Lower(c)) == IsSlugWord(c) && Lower(Lower(c)) == Lower(c)
    ensures IsSlugWord(c) ==> Lower(c) != '-'
  {
  }

  lemma JoinSnoc(parts: seq<string>, p: string, separator: string)
    ensures Join(parts + [p], separator) == if parts == [] then p else Join(parts, separator) + separator + p
  {
    assert (parts + [p])[..|parts|] == parts;
  }

  lemma JoinExtend(parts: seq<string>, c: char, separator: string)
    requires parts != []
    ensures Join(parts[..|parts| - 1] + [parts[|parts| - 1] + [c]], separator) == Join(parts, separator) + [c]
  {
    var init, last := parts[..|parts| - 1], parts[|parts| - 1];
    JoinSnoc(init, last, separator);
    JoinSnoc(init, last + [c], separator);
    assert init + [last] == parts;
  }

  /** How one more character changes the words. */
  lemma WordsSnoc(init: string, c: char)
    ensures var ws := Words(init);
            Words(init + [c]) == if !IsSlugWord(c) then ws
                                 else if init != "" && IsSlugWord(init[|init| - 1]) then ws[..|ws| - 1] + [ws[|ws| - 1] + [Lower(c)]]
                                 else ws + [[Lower(c)]]
    ensures init != "" && IsSlugWord(init[|init| - 1]) ==> Words(init) != []
  {
    var seg := init + [c];
    LoweredWord(c);
    if init != "" { LoweredWord(init[|init| - 1]); }
    assert Lowered(seg)[..|seg| - 1] == Lowered(init);
  }

  /** out is what stands for these words so far, with a dash put out already when one is open. */
  predicate Stands(out: string, words: seq<string>, dash: bool) {
    && out == Join(words, "-") + (if dash then "-" else "")
    && (words == [] <==> Join(words, "-") == "")
    && (words != [] ==> Join(words, "-")[|Join(words, "-")| - 1] != '-')
    && (dash ==> words != [])
  }

  predicate DashIsOpen(seg: string) {
    seg != "" && !IsSlugWord(seg[|seg| - 1]) && Words(seg) != []
  }

  lemma StandsExtended(out: string, words: seq<string>, c: char)
    requires Stands(out, words, false) && words != [] && c != '-'
    ensures Stands(out + [c], words[..|words| - 1] + [words[|words| - 1] + [c]], false)
  {
    JoinExtend(words, c, "-");
  }

  lemma StandsLonger(out: string, words: seq<string>, dash: bool, c: char)
    requires Stands(out, words, dash) && c != '-' && (words != [] ==> dash)
    ensures Stands(out + [c], words + [[c]], false)
  {
    JoinSnoc(words, [c], "-");
  }

  lemma {:induction false} ScannedStands(seg: string)
    ensures Stands(Scanned(seg), Words(seg), DashIsOpen(seg))
  {
    if seg != "" {
      var init, c := seg[..|seg| - 1], seg[|seg| - 1];
      ScannedStands(init);
      LoweredWord(c);
      assert seg == init + [c];
      WordsSnoc(init, c);
      if IsSlugWord(c) {
        if init != "" && IsSlugWord(init[|init| - 1]) {
          StandsExtended(Scanned(init), Words(init), Lower(c));
        } else {
          NoWordsYet(init);
          StandsLonger(Scanned(init), Words(init), DashIsOpen(init), Lower(c));
        }
      }
    }
  }

  lemma NoWordsYet(init: string)
    requires init == "" || !IsSlugWord(init[|init| - 1])
    ensures Words(init) != [] ==> DashIsOpen(init)
  {
  }

  /** slugify is the words of the name joined by single dashes. */
  lemma SlugIsWordsJoined(seg: string)
    ensures SlugOf(seg) == Join(Words(seg), "-")
  {
    ScannedStands(seg);
  }

  /** Lower-case letters, digits, underscores and single inner dashes. */
  predicate Shaped(s: string) {
    && (forall i :: 0 <= i < |s| ==> (IsSlugWord(s[i]) && Lower(s[i]) == s[i]) || s[i] == '-')
    && (s != "" ==> s[0] != '-' && s[|s| - 1] != '-')
    && (forall i :: 0 <= i < |s| - 1 ==> s[i] == '-' ==> s[i + 1] != '-')
  }

  predicate ShapedOpen(s: string) {
    && (forall i :: 0 <= i < |s| ==> (IsSlugWord(s[i]) && Lower(s[i]) == s[i]) || s[i] == '-')
    && (s != "" ==> s[0] != '-')
    && (forall i :: 0 <= i < |s| - 1 ==> s[i] == '-' ==> s[i + 1] != '-')
  }

  lemma {:induction false} ScannedIsShaped(seg: string)
    ensures ShapedOpen(Scanned(seg))
  {
    if seg != "" {
      ScannedIsShaped(seg[..|seg| - 1]);
      LoweredWord(seg[|seg| - 1]);
    }
  }

  lemma {:induction false} ScannedKeepsShaped(s: string)
    requires ShapedOpen(s)
    ensures Scanned(s) == s
  {
    if s != "" {
      ScannedKeepsShaped(s[..|s| - 1]);
    }
  }

  /** Every slug is shaped, and the shaped names are exactly those that slugify leaves alone: it is
      idempotent. */
  lemma SlugsAreTheFixpoints(seg: string)
    ensures Shaped(SlugOf(seg)) && SlugOf(SlugOf(seg)) == SlugOf(seg)
    ensures SlugOf(seg) == seg <==> Shaped(seg)
  {
    ScannedIsShaped(seg);
    ScannedKeepsShaped(SlugOf(seg));
    if Shaped(seg) { ScannedKeepsShaped(seg); }
  }

  // ---------------------------------------------------------------- recognisers

  predicate SlugLike(name: string) {
    name != "" && forall i :: 0 <= i < |name| ==> IsAlnum(name[i]) || name[i] == '-' || name[i] == '_'
  }

  predicate ChapterPathLike(s: string) {
    s != "" && forall i :: 0 <= i < |Split(s, '/')| ==> SlugLike(Split(s, '/')[i])
  }

  const RESERVED_AUX_DIRS: set<string> := {"examples", "c4"}

  predicate IncludesAsContent(name: string) {
    && SlugLike(name)
    && !(name[0] == '_') && !(name[0] == '.')
    && StripOrderPrefix(name) !in RESERVED_AUX_DIRS
  }

  // ---------------------------------------------------------------- chapter slugs

  /** The slug parts of a path, empty ones dropped. */
  function SlugParts(segs: seq<string>): seq<string> {
    if segs == [] then []
    else
      var before, seg := SlugParts(segs[..|segs| - 1]), RemoveSuffix(segs[|segs| - 1], ".md");
      if seg == "" || SlugOf(StripOrderPrefix(seg)) == "" then before else before + [SlugOf(StripOrderPrefix(seg))]
  }

  function ChapterSlug(segs: seq<string>): string {
    Join(SlugParts(segs), "/")
  }

  method MakeChapterSlug(segs: seq<string>) returns (s: string)
    ensures s == ChapterSlug(segs)
  {
    var parts := [];
    for i := 0 to |segs|
      invariant parts == SlugParts(segs[..i])
    {
      assert segs[..i + 1][..i] == segs[..i];
      var seg := RemoveSuffix(segs[i], ".md");
      if seg != "" {
        var piece := Slugify(StripOrderPrefix(seg));
        if piece != "" {
          parts := parts + [piece];
        }
      }
    }
    assert segs[..|segs|] == segs;
    s := Join(parts, "/");
  }

  lemma SlugIsSlugLike(seg: string)
    ensures SlugOf(seg) == "" || SlugLike(SlugOf(seg))
  {
    SlugsAreTheFixpoints(seg);
  }

  lemma {:induction false} PartsAreSlugLike(segs: seq<string>)
    ensures forall i :: 0 <= i < |SlugParts(segs)| ==> SlugLike(SlugParts(segs)[i])
  {
    if segs != [] {
      PartsAreSlugLike(segs[..|segs| - 1]);
      SlugIsSlugLike(StripOrderPrefix(RemoveSuffix(segs[|segs| - 1], ".md")));
    }
  }

  /** The recogniser accepts exactly the slash-joined lists of slug-like segments; so no accepted path
      has an empty, "." or ".." segment. */
  lemma PathLikeIff(s: string)
    ensures ChapterPathLike(s) <==> exists parts :: parts != [] && AllSlugLike(parts) && s == Join(parts, "/")
  {
    if ChapterPathLike(s) {
      JoinUndoesSplit(s, '/');
      assert AllSlugLike(Split(s, '/'));
    }
    if parts :| parts != [] && AllSlugLike(parts) && s == Join(parts, "/") {
      JoinedIsPathLike(parts);
    }
  }

  predicate AllSlugLike(parts: seq<string>) {
    forall i :: 0 <= i < |parts| ==> SlugLike(parts[i])
  }

  lemma JoinedIsPathLike(parts: seq<string>)
    requires parts != [] && AllSlugLike(parts)
    ensures ChapterPathLike(Join(parts, "/"))
  {
    assert forall i :: 0 <= i < |parts| ==> '/' !in parts[i];
    SplitUndoesJoin(parts, '/');
    if |parts| > 1 { JoinSnoc(parts[..|parts| - 1], parts[|parts| - 1], "/"); }
  }

  /** Whatever the files are called, a chapter slug that is not empty passes the recogniser, and its
      segments can be read back from it. */
  lemma ChapterSlugsAreRecognised(segs: seq<string>)
    ensures ChapterSlug(segs) != "" <==> SlugParts(segs) != []
    ensures ChapterSlug(segs) != "" ==> ChapterPathLike(ChapterSlug(segs)) && Split(ChapterSlug(segs), '/') == SlugParts(segs)
  {
    PartsAreSlugLike(segs);
    if SlugParts(segs) != [] {
      JoinedIsPathLike(SlugParts(segs));
      assert forall i :: 0 <= i < |SlugParts(segs)| ==> '/' !in SlugParts(segs)[i];
      SplitUndoesJoin(SlugParts(segs), '/');
    }
  }
}
