/** What a file or directory name means (grounding_mcp/slug.py, grounding_mcp/corpus.py), said of the
    pieces it is written in: order digits, a separator, a stem and an extension. */
module FileNames {
  import opened Builtins
  import opened Slug
  import opened Corpus

  // ---------------------------------------------------------------- letters

  const CAPITALS := "ABCDEFGHIJKLMNOPQRSTUVWXYZ"
  const SMALLS := "abcdefghijklmnopqrstuvwxyz"
  const DIGITS := "0123456789"

  lemma CapitalAt(i: nat)
    requires i < 26
    ensures CAPITALS[i] as int == 65 + i
  {
  }

  lemma SmallAt(i: nat)
    requires i < 26
    ensures SMALLS[i] as int == 97 + i
  {
  }

  lemma DigitAt(i: nat)
    requires i < 10
    ensures DIGITS[i] as int == 48 + i
  {
  }

  /** Each capital has its small letter, and nothing else is changed. */
  lemma LowersCapitals(i: nat)
    requires i < 26
    ensures Lower(CAPITALS[i]) == SMALLS[i] == Lower(SMALLS[i])
    ensures forall c :: c !in CAPITALS ==> Lower(c) == c
  {
    CapitalAt(i);
    SmallAt(i);
    forall c | c !in CAPITALS ensures Lower(c) == c {
      NotACapital(c);
    }
  }

  lemma NotACapital(c: char)
    ensures c in CAPITALS <==> 65 <= c as int < 91
  {
    if 65 <= c as int < 91 {
      CapitalAt(c as int - 65);
      assert c == CAPITALS[c as int - 65];
    }
    if c in CAPITALS {
      var i :| 0 <= i < 26 && c == CAPITALS[i];
      CapitalAt(i);
    }
  }

  lemma IsASmall(c: char)
    ensures c in SMALLS <==> 97 <= c as int < 123
  {
    if 97 <= c as int < 123 {
      SmallAt(c as int - 97);
      assert c == SMALLS[c as int - 97];
    }
    if c in SMALLS {
      var i :| 0 <= i < 26 && c == SMALLS[i];
      SmallAt(i);
    }
  }

  lemma IsADigit(c: char)
    ensures c in DIGITS <==> 48 <= c as int < 58
  {
    if 48 <= c as int < 58 {
      DigitAt(c as int - 48);
      assert c == DIGITS[c as int - 48];
    }
    if c in DIGITS {
      var i :| 0 <= i < 10 && c == DIGITS[i];
      DigitAt(i);
    }
  }

  /** Every character of a slug is a small letter, a digit, an underscore or a dash; none is a capital. */
  lemma SlugsHoldNoCapitals(seg: string, i: nat)
    requires i < |SlugOf(seg)|
    ensures var c := SlugOf(seg)[i];
            c !in CAPITALS && (c in SMALLS || c in DIGITS || c == '_' || c == '-')
  {
    SlugsAreTheFixpoints(seg);
    NotACapital(SlugOf(seg)[i]);
    IsASmall(SlugOf(seg)[i]);
    IsADigit(SlugOf(seg)[i]);
  }

  // ---------------------------------------------------------------- the pieces of a name

  datatype Pieces = Pieces(digits: string, separator: string, stem: string, extension: string)

  function Prefixed(p: Pieces): string {
    p.digits + p.separator + p.stem
  }

  function Spelt(p: Pieces): string {
    Prefixed(p) + p.extension
  }

  /** The digits and the separator are as long as they can be, and the extension is taken when there. */
  ghost predicate Proper(p: Pieces) {
    && (forall i :: 0 <= i < |p.digits| ==> '0' <= p.digits[i] <= '9')
    && p.separator in {"", ".", "_", "-"}
    && (p.digits == "" ==> p.separator == "")
    && (p.separator == "" && p.stem != "" ==> !('0' <= p.stem[0] <= '9') && (p.digits != "" ==> p.stem[0] !in "._-"))
    && (p.extension == ".md" || (p.extension == "" && !MarkedDown(Prefixed(p))))
  }

  ghost predicate MarkedDown(name: string) {
    exists stem :: name == stem + ".md"
  }

  lemma ExtensionIsRemoved(p: Pieces)
    requires Proper(p)
    ensures RemoveSuffix(Spelt(p), ".md") == Prefixed(p)
  {
    EndsWithIff(Prefixed(p), ".md");
    assert Prefixed(p) + "" == Prefixed(p);
    assert (Prefixed(p) + ".md")[|Prefixed(p)|..] == ".md";
  }

  lemma PrefixIsRemoved(p: Pieces)
    requires Proper(p)
    ensures StripOrderPrefix(Prefixed(p)) == p.stem
  {
    if p.digits == "" {
      assert "" + "" + p.stem == p.stem;
      DigitsAheadOf("", p.stem);
    } else {
      OrderPrefixIsStripped(p.digits, p.separator, p.stem);
    }
  }

  /** The pieces of a name whose extension is off. */
  function PiecesOf(seg: string, extension: string): Pieces {
    var n := DigitsAhead(seg);
    if n > 0 && n < |seg| && seg[n] in "._-" then Pieces(seg[..n], [seg[n]], seg[n + 1..], extension)
    else Pieces(seg[..n], "", seg[n..], extension)
  }

  lemma Separators(c: char)
    requires c in "._-"
    ensures [c] in {"", ".", "_", "-"}
  {
    assert [c] == "." || [c] == "_" || [c] == "-";
  }

  lemma CutInTwo(s: string, n: nat)
    requires n <= |s|
    ensures s[..n] + "" + s[n..] == s
  {
  }

  lemma CutInThree(s: string, n: nat)
    requires n < |s|
    ensures s[..n] + [s[n]] + s[n + 1..] == s
  {
  }

  lemma PiecesAreProper(seg: string, extension: string)
    requires extension == ".md" || (extension == "" && !MarkedDown(seg))
    ensures var p := PiecesOf(seg, extension);
            Proper(p) && Prefixed(p) == seg && p.stem == StripOrderPrefix(seg) && p.extension == extension
  {
    var n := DigitsAhead(seg);
    if n > 0 && n < |seg| && seg[n] in "._-" {
      Separators(seg[n]);
      CutInThree(seg, n);
    } else {
      CutInTwo(seg, n);
      assert n == 0 ==> seg[n..] == seg;
    }
  }

  /** Every name is made of such pieces. */
  lemma NamesHavePieces(name: string)
    ensures exists p :: Proper(p) && Spelt(p) == name
  {
    EndsWithIff(name, ".md");
    if stem :| name == stem + ".md" {
      PiecesAreProper(stem, ".md");
      assert Spelt(PiecesOf(stem, ".md")) == name;
    } else {
      PiecesAreProper(name, "");
      assert Spelt(PiecesOf(name, "")) == name + "";
    }
  }

  // ---------------------------------------------------------------- what a name adds to a slug

  /** Digits, separator and extension leave no trace: a name adds the words of its stem, joined by dashes,
      or nothing when the stem has no words. */
  lemma NameAddsItsWords(segs: seq<string>, p: Pieces)
    requires Proper(p)
    ensures SlugParts(segs + [Spelt(p)]) == SlugParts(segs) + if Words(p.stem) == [] then [] else [Join(Words(p.stem), "-")]
    ensures Words(p.stem) != [] ==> Join(Words(p.stem), "-") != ""
  {
    ExtensionIsRemoved(p);
    PrefixIsRemoved(p);
    StemSlug(p.stem);
    PartsSnoc(segs, Spelt(p));
  }

  lemma StemSlug(stem: string)
    ensures SlugOf(stem) == Join(Words(stem), "-")
    ensures SlugOf(stem) == "" <==> Words(stem) == []
    ensures StripOrderPrefix("") == ""
  {
    SlugIsWordsJoined(stem);
    ScannedStands(stem);
  }

  lemma PartsSnoc(segs: seq<string>, name: string)
    ensures var seg := RemoveSuffix(name, ".md"); var piece := SlugOf(StripOrderPrefix(seg));
            SlugParts(segs + [name]) == if seg == "" || piece == "" then SlugParts(segs) else SlugParts(segs) + [piece]
  {
    assert (segs + [name])[..|segs|] == segs;
  }

  lemma {:induction false} LoweredJoin(words: seq<string>, separator: string)
    ensures Lowered(Join(words, separator)) == Join(AllLowered(words), Lowered(separator))
  {
    if |words| > 1 {
      var init := words[..|words| - 1];
      LoweredJoin(init, separator);
      AllLoweredSnoc(words);
      JoinLast(words, separator);
      JoinLast(AllLowered(words), Lowered(separator));
      LoweredOfThree(Join(init, separator), separator, words[|words| - 1]);
    }
  }

  lemma LoweredOfThree(a: string, b: string, c: string)
    ensures Lowered(a + b + c) == Lowered(a) + Lowered(b) + Lowered(c)
  {
  }

  /** The words of a stem are those it was joined from, in lower case. */
  lemma StemWords(words: seq<string>, separator: char)
    requires !IsSlugWord(separator) && forall k :: 0 <= k < |words| ==> IsWord(words[k], IsSlugWord)
    ensures Words(Join(words, [separator])) == AllLowered(words)
  {
    LoweredJoin(words, [separator]);
    assert Lowered([separator]) == [separator];
    LowerKeepsWords(words);
    RunsUndoJoin(AllLowered(words), separator, IsSlugWord);
  }

  lemma LowerKeepsWords(words: seq<string>)
    requires forall k :: 0 <= k < |words| ==> IsWord(words[k], IsSlugWord)
    ensures forall k :: 0 <= k < |words| ==> IsWord(AllLowered(words)[k], IsSlugWord)
  {
  }

  lemma Part(segs: seq<string>, p: Pieces, words: seq<string>)
    requires Proper(p) && Words(p.stem) == words != []
    ensures SlugParts(segs + [Spelt(p)]) == SlugParts(segs) + [Join(words, "-")]
  {
    NameAddsItsWords(segs, p);
  }

  lemma SystemWord()
    ensures IsWord("system", IsSlugWord) && Lowered("system") == "system"
  {
  }

  lemma OneWord(w: string, separator: char)
    requires !IsSlugWord(separator) && IsWord(w, IsSlugWord) && Lowered(w) == w
    ensures Words(w) == [w]
  {
    StemWords([w], separator);
    assert AllLowered([w]) == [w];
  }

  lemma SystemPart()
    ensures SlugParts(["02-system"]) == ["system"]
  {
    var p := Pieces("02", "-", "system", "");
    EndsWithIff("02-system", ".md");
    assert Prefixed(p) == "02-system" == Spelt(p);
    SystemWord();
    OneWord("system", '-');
    Part([], p, ["system"]);
    assert [] + [Spelt(p)] == ["02-system"] && [] + ["system"] == ["system"];
  }

  lemma StepSpelt(p: Pieces)
    requires p == Pieces("01", "-", "next-step", ".md")
    ensures Spelt(p) == "01-next-step.md"
  {
  }

  lemma StepPart(segs: seq<string>)
    ensures SlugParts(segs + ["01-next-step.md"]) == SlugParts(segs) + ["next-step"]
  {
    var p := Pieces("01", "-", "next-step", ".md");
    StepSpelt(p);
    StemWords(["next", "step"], '-');
    NextStepJoined();
    Part(segs, p, ["next", "step"]);
  }

  lemma NextStepJoined()
    ensures Join(["next", "step"], "-") == "next-step" && AllLowered(["next", "step"]) == ["next", "step"]
  {
    assert ["next", "step"][..1] == ["next"];
    assert Lowered("next") == "next" && Lowered("step") == "step";
  }

  /** The path 02-system, 01-next-step.md is the chapter system/next-step. */
  lemma NextStep()
    ensures ChapterSlug(["02-system", "01-next-step.md"]) == "system/next-step"
  {
    SystemPart();
    StepPart(["02-system"]);
    SlugOfTwo("02-system", "01-next-step.md", "system", "next-step");
    SlashBetween();
  }

  lemma SlashBetween()
    ensures "system" + "/" + "next-step" == "system/next-step"
  {
  }

  lemma SlugOfTwo(a: string, b: string, x: string, y: string)
    requires SlugParts([a] + [b]) == [x] + [y]
    ensures ChapterSlug([a, b]) == x + "/" + y
  {
    TwoNames(a, b);
    JoinTwo(x, y, "/");
  }

  lemma TwoNames(a: string, b: string)
    ensures [a, b] == [a] + [b]
  {
  }

  lemma JoinTwo(a: string, b: string, separator: string)
    ensures Join([a] + [b], separator) == a + separator + b
  {
    JoinSnoc([a], b, separator);
  }

  // ---------------------------------------------------------------- which directories hold content

  lemma NoContentHasExtension(p: Pieces)
    requires p.extension == ".md"
    ensures !SlugLike(Spelt(p))
  {
    assert Spelt(p)[|Prefixed(p)|] == '.';
  }

  lemma FirstIsNoDot(name: string)
    requires SlugLike(name)
    ensures name[0] != '.'
  {
  }

  /** A directory is walked if and only if its name is letters, digits, dashes and underscores, does not
      start with an underscore, and is not "examples" or "c4" behind its order prefix. */
  lemma ContentNamesIff(p: Pieces)
    requires Proper(p)
    ensures var name := Spelt(p);
            (IncludesAsContent(name)
             <==> (name != "" && name[0] != '_' && p.stem != "examples" && p.stem != "c4"
                   && forall i :: 0 <= i < |name| ==> IsAlnum(name[i]) || name[i] == '-' || name[i] == '_'))
  {
    var name := Spelt(p);
    PrefixIsRemoved(p);
    if p.extension == ".md" { NoContentHasExtension(p); } else { assert name == Prefixed(p); }
    if SlugLike(name) { FirstIsNoDot(name); }
  }

  /** A chapter is a problem if and only if a directory above it is called "problems" behind its order
      prefix. */
  lemma ProblemsLieUnderProblems(book: string, path: seq<string>, file: Entry)
    requires file.File? && path != []
    ensures ChapterOf(book, path, file).isProblem
       <==> exists i, p: Pieces :: 0 <= i < |path| - 1 && Proper(p) && p.stem == "problems" && path[i] == Prefixed(p)
  {
    if i, p: Pieces :| 0 <= i < |path| - 1 && Proper(p) && p.stem == "problems" && path[i] == Prefixed(p) {
      PrefixIsRemoved(p);
    }
    if i :| 0 <= i < |path| - 1 && StripOrderPrefix(path[i]) == "problems" {
      PiecesAreProper(path[i], ".md");
    }
  }
}
