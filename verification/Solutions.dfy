/** What the splitter withholds (grounding_mcp/corpus.py, split_visible_solution), and what normalising
    leaves of a text. */
module Solutions {
  import opened Wrappers
  import opened Builtins
  import opened Splitter

  // ---------------------------------------------------------------- blank runs

  function Lines(n: nat): string {
    seq(n, _ => '\n')
  }

  lemma {:induction false} NewlinesOf(n: nat, rest: string)
    requires rest == "" || rest[0] != '\n'
    ensures Newlines(Lines(n) + rest) == n
  {
    if n == 0 {
      assert Lines(0) + rest == rest;
    } else {
      NewlinesOf(n - 1, rest);
      assert (Lines(n) + rest)[1..] == Lines(n - 1) + rest;
    }
  }

  lemma CollapseHead(s: string)
    requires s != "" && s[0] != '\n'
    ensures CollapseBlankRuns(s) == [s[0]] + CollapseBlankRuns(s[1..])
  {
  }

  lemma CollapseLines(n: nat, rest: string)
    requires rest == "" || rest[0] != '\n'
    ensures CollapseBlankRuns(Lines(n) + rest) == Lines(if n >= 3 then 2 else n) + CollapseBlankRuns(rest)
  {
    NewlinesOf(n, rest);
    var s := Lines(n) + rest;
    assert s[n..] == rest && s[..n] == Lines(n);
    assert "\n\n" == Lines(2);
    if n == 0 { assert s == rest; }
  }

  /** A line of text: nothing in it but the breaks around it. */
  predicate IsLine(s: string) {
    '\n' !in s
  }

  lemma {:induction false} CollapsePastLine(line: string, rest: string)
    requires IsLine(line)
    ensures CollapseBlankRuns(line + rest) == line + CollapseBlankRuns(rest)
  {
    if line == "" {
      assert line + rest == rest;
    } else {
      CollapsePastLine(line[1..], rest);
      HeadAndTail(line, rest);
      CollapseHead(line + rest);
      HeadAndTail(line, CollapseBlankRuns(rest));
    }
  }

  /** A text: lines, each with the number of breaks behind it. */
  datatype Text = Nil | Cons(line: string, breaks: nat, rest: Text)

  function Written(t: Text): string {
    match t
    case Nil => ""
    case Cons(line, breaks, rest) => line + (Lines(breaks) + Written(rest))
  }

  function AtMostTwo(t: Text): Text {
    match t
    case Nil => Nil
    case Cons(line, breaks, rest) => Cons(line, if breaks >= 3 then 2 else breaks, AtMostTwo(rest))
  }

  /** Each run of breaks is whole: the line behind it is not empty. */
  predicate Whole(t: Text) {
    match t
    case Nil => true
    case Cons(line, breaks, rest) => IsLine(line) && (rest.Cons? ==> rest.line != "") && Whole(rest)
  }

  /** Three or more breaks become two, and nothing else changes. */
  lemma {:induction false} CollapsesLongRuns(t: Text)
    requires Whole(t)
    ensures CollapseBlankRuns(Written(t)) == Written(AtMostTwo(t))
  {
    match t
    case Nil =>
    case Cons(line, breaks, rest) =>
      CollapsesLongRuns(rest);
      CollapsePastLine(line, Lines(breaks) + Written(rest));
      FirstOfWritten(rest);
      CollapseLines(breaks, Written(rest));
  }

  lemma FirstOfWritten(t: Text)
    requires Whole(t) && (t.Cons? ==> t.line != "")
    ensures Written(t) == "" || Written(t)[0] != '\n'
  {
    if t.Cons? { assert Written(t)[0] == t.line[0]; }
  }

  lemma WrittenBreak(rest: Text)
    ensures Written(Cons("", 1, rest)) == "\n" + Written(rest)
    ensures rest.Cons? && rest.line == "" ==> Written(Cons("", rest.breaks + 1, rest.rest)) == "\n" + Written(rest)
  {
    assert Lines(1) == "\n";
    if rest.Cons? { assert Lines(rest.breaks + 1) == "\n" + Lines(rest.breaks); }
  }

  lemma WrittenLetter(c: char, rest: Text)
    ensures rest.Cons? ==> Written(Cons([c] + rest.line, rest.breaks, rest.rest)) == [c] + Written(rest)
    ensures Written(Cons([c], 0, Nil)) == [c]
  {
    assert Lines(0) == "";
  }

  /** Every string is such a text. */
  lemma {:induction false} StringsAreTexts(s: string) returns (t: Text)
    ensures Whole(t) && Written(t) == s
  {
    if s == "" { return Nil; }
    var rest := StringsAreTexts(s[1..]);
    assert s == [s[0]] + s[1..];
    WrittenBreak(rest);
    WrittenLetter(s[0], rest);
    if s[0] == '\n' {
      t := if rest.Cons? && rest.line == "" then Cons("", rest.breaks + 1, rest.rest) else Cons("", 1, rest);
    } else {
      t := if rest.Cons? then Cons([s[0]] + rest.line, rest.breaks, rest.rest) else Cons([s[0]], 0, Nil);
    }
  }

  // ---------------------------------------------------------------- stripping

  lemma {:induction false} StripsRight(s: string, blank: string)
    requires IsBlank(blank) && (s == "" || !IsSpace(s[|s| - 1]))
    ensures StripRight(s + blank) == s
  {
    if blank == "" {
      assert s + blank == s;
    } else {
      StripsRight(s, blank[..|blank| - 1]);
      assert (s + blank)[..|s + blank| - 1] == s + blank[..|blank| - 1];
    }
  }

  lemma {:induction false} StripsLeft(blank: string, s: string)
    requires IsBlank(blank) && (s == "" || !IsSpace(s[0]))
    ensures StripLeft(blank + s) == s
  {
    if blank == "" {
      assert blank + s == s;
    } else {
      StripsLeft(blank[1..], s);
      assert (blank + s)[1..] == blank[1..] + s;
    }
  }

  lemma {:induction false} BlankStripsToNothing(blank: string)
    requires IsBlank(blank)
    ensures StripLeft(blank) == "" == StripRight(blank)
  {
    StripsLeft(blank, "");
    StripsRight("", blank);
    assert blank + "" == blank == "" + blank;
  }

  /** Stripping takes the blank ends off, and nothing else. */
  lemma StripsEnds(before: string, s: string, after: string)
    requires IsBlank(before) && IsBlank(after)
    requires s != "" ==> !IsSpace(s[0]) && !IsSpace(s[|s| - 1])
    ensures Strip(before + s + after) == s
  {
    if s == "" {
      assert before + s + after == before + after;
      BlankStripsToNothing(before + after);
    } else {
      assert before + s + after == before + (s + after);
      StripsLeft(before, s + after);
      StripsRight(s, after);
    }
  }

  // ---------------------------------------------------------------- tags

  /** A letter of a tag's name is matched by itself, its capital, and beyond ASCII by the long s and the
      two Turkish letters i. */
  lemma MatchesIff(c: char, p: char)
    requires 'a' <= p <= 'z'
    ensures Matches(c, p) <==> || c == p || c as int + 32 == p as int
                               || (c as int == 0x17f && p == 's') || (c as int in {0x130, 0x131} && p == 'i')
  {
  }

  datatype Markup = End(text: string) | More(text: string, tag: string, rest: Markup)

  function Show(m: Markup): string {
    match m
    case End(text) => text
    case More(text, tag, rest) => text + (tag + Show(rest))
  }

  /** What is left when the tags are gone. */
  function Texts(m: Markup): string {
    match m
    case End(text) => text
    case More(text, _, rest) => text + Texts(rest)
  }

  /** <details …>, </details>, <summary …> or </summary>, in any case of letters. */
  ghost predicate IsTag(tag: string) {
    exists slash, name, attrs :: TagOf(tag, slash, name, attrs)
  }

  ghost predicate TagOf(tag: string, slash: string, name: string, attrs: string) {
    && slash in {"", "/"} && |name| == 7 && (StartsWith(name, "details") || StartsWith(name, "summary"))
    && '>' !in attrs && AtBoundary(attrs, 0)
    && tag == "<" + slash + name + attrs + ">"
  }

  predicate HasNoTag(text: string) {
    forall i :: 0 <= i < |text| ==> !TagOpens(text[i..])
  }

  ghost predicate IsMarkup(m: Markup) {
    match m
    case End(text) => HasNoTag(text)
    case More(text, tag, rest) => HasNoTag(text) && IsTag(tag) && IsMarkup(rest)
  }

  lemma StartsAt(before: string, s: string, pattern: string)
    requires StartsWith(s, pattern)
    ensures StartsWith((before + s)[|before|..], pattern)
  {
    assert (before + s)[|before|..] == s;
  }

  lemma SlashIs(slash: string, name: string, after: string)
    requires slash in {"", "/"} && name != "" && (StartsWith(name, "details") || StartsWith(name, "summary"))
    ensures SlashEnd("<" + slash + name + after) == 1 + |slash|
  {
    var s := "<" + slash + name + after;
    assert s[1] == if slash == "" then name[0] else '/';
  }

  lemma NameIsFound(head: string, name: string, after: string)
    requires |name| == 7 && (StartsWith(name, "details") || StartsWith(name, "summary"))
    ensures var s := (head + (name + after))[|head|..]; StartsWith(s, "details") || StartsWith(s, "summary")
  {
    if StartsWith(name, "details") {
      StartsWithPrefix(name, after, "details");
      StartsAt(head, name + after, "details");
    } else {
      StartsWithPrefix(name, after, "summary");
      StartsAt(head, name + after, "summary");
    }
  }

  lemma TagLenAt(s: string, attrs: string, rest: string)
    requires TagOpens(s) && '>' !in attrs && s[SlashEnd(s) + 7..] == attrs + ">" + rest
    ensures TagLen(s) == Some(SlashEnd(s) + 7 + |attrs| + 1)
  {
    FindCharAt(attrs, '>', rest);
  }

  lemma BoundaryAt(head: string, attrs: string, rest: string)
    requires AtBoundary(attrs, 0)
    ensures AtBoundary(head + (attrs + ">" + rest), |head|)
    ensures (head + (attrs + ">" + rest))[|head|..] == attrs + ">" + rest
  {
  }

  lemma TagIsCut(tag: string, slash: string, name: string, attrs: string, rest: string)
    requires TagOf(tag, slash, name, attrs)
    ensures TagLen(tag + rest) == Some(|tag|)
  {
    var s, head, after := tag + rest, "<" + slash, attrs + ">" + rest;
    assert s == "<" + slash + name + after;
    assert s == head + (name + after);
    SlashIs(slash, name, after);
    NameIsFound(head, name, after);
    BoundaryAt(head + name, attrs, rest);
    assert s == (head + name) + after;
    TagLenAt(s, attrs, rest);
  }

  lemma NoTagTail(text: string)
    requires HasNoTag(text) && text != ""
    ensures !TagOpens(text) && HasNoTag(text[1..])
  {
    assert text[0..] == text;
    forall i | 0 <= i < |text[1..]| ensures !TagOpens(text[1..][i..]) {
      assert text[1..][i..] == text[i + 1..];
    }
  }

  lemma StripStep(s: string)
    requires s != "" && !TagOpens(s)
    ensures StripTags(s) == [s[0]] + StripTags(s[1..])
  {
  }

  lemma SameStart(text: string, rest: string)
    requires text != "" && (rest == "" || rest[0] == '<')
    ensures TagOpens(text + rest) ==> TagOpens(text)
  {
    var s := text + rest;
    if TagOpens(s) {
      NoStraddle(text, rest, "</");
      var n := SlashEnd(s);
      assert StartsWith(text, "<");
      assert n == SlashEnd(text);
      if n < |text| {
        Suffix(text, rest, n);
        NoStraddle(text[n..], rest, "details");
        NoStraddle(text[n..], rest, "summary");
      } else {
        assert s[n..] == rest;
      }
      assert n + 7 < |text| ==> s[n + 7] == text[n + 7];
    }
  }

  lemma {:induction false} StripPastText(text: string, rest: string)
    requires HasNoTag(text) && (rest == "" || rest[0] == '<')
    ensures StripTags(text + rest) == text + StripTags(rest)
  {
    if text == "" {
      assert text + rest == rest;
    } else {
      NoTagTail(text);
      SameStart(text, rest);
      StripPastText(text[1..], rest);
      HeadAndTail(text, rest);
      StripStep(text + rest);
      HeadAndTail(text, StripTags(rest));
    }
  }

  lemma StripPastTag(tag: string, rest: string)
    requires IsTag(tag)
    ensures StripTags(tag + rest) == StripTags(rest)
    ensures tag != "" && tag[0] == '<'
  {
    var slash, name, attrs :| TagOf(tag, slash, name, attrs);
    TagIsCut(tag, slash, name, attrs, rest);
    assert (tag + rest)[|tag|..] == rest;
    assert tag[0] == '<';
  }

  lemma Regroup3(a: string, b: string, c: string, d: string)
    ensures (a + (b + c)) + d == a + (b + (c + d))
    ensures b == "" ==> (a + c) + d == a + (c + d)
  {
  }

  /** Behind a marked-up text comes nothing or another tag. */
  lemma {:induction false} StripPastMarkup(m: Markup, rest: string)
    requires IsMarkup(m) && (rest == "" || rest[0] == '<')
    ensures StripTags(Show(m) + rest) == Texts(m) + StripTags(rest)
  {
    match m
    case End(text) => StripPastText(text, rest);
    case More(text, tag, more) =>
      StripPastMarkup(more, rest);
      var behind := tag + (Show(more) + rest);
      StripPastTag(tag, Show(more) + rest);
      StripPastText(text, behind);
      Regroup3(text, tag, Show(more), rest);
      Regroup3(text, "", Texts(more), StripTags(rest));
  }

  // ---------------------------------------------------------------- the solution of a flat body

  /** A block whose inside is this marked-up text. */
  ghost predicate Encloses(b: Block, m: Markup) {
    Tagged(b) && IsMarkup(m) && b.inner == Show(m)
  }

  lemma OpenIsTag(b: Block)
    requires Tagged(b)
    ensures IsTag(OpenOf(b))
  {
    var name := b.open[1..];
    assert b.open == "<" + "" + name;
    assert Matches(b.open[0], OPEN[0]);
    assert forall i :: 0 <= i < 7 ==> OPEN[i + 1] == "details"[i];
    assert TagOf(b.open + b.attrs + ">", "", name, b.attrs);
  }

  lemma CloseIsTag(b: Block)
    requires Tagged(b)
    ensures IsTag(b.close)
  {
    var name := b.close[2..9];
    assert Matches(b.close[0], CLOSE[0]) && Matches(b.close[1], CLOSE[1]) && Matches(b.close[9], CLOSE[9]);
    assert forall i :: 0 <= i < 7 ==> CLOSE[i + 2] == "details"[i];
    assert b.close == "<" + "/" + name + "" + ">";
    assert TagOf(b.close, "/", name, "");
  }

  function OpenOf(b: Block): string {
    b.open + b.attrs + ">"
  }

  lemma BlockIsSpelt(b: Block, rest: string)
    ensures Splitter.Show(b) + rest == OpenOf(b) + (b.inner + (b.close + rest))
  {
  }

  lemma BlockStarts(b: Block)
    requires Tagged(b)
    ensures Splitter.Show(b) != "" && Splitter.Show(b)[0] == '<' == b.close[0]
  {
    assert Matches(b.open[0], OPEN[0]) && Matches(b.close[0], CLOSE[0]);
  }

  lemma CloseStarts(b: Block, rest: string)
    requires Tagged(b)
    ensures (b.close + rest)[0] == '<'
  {
    BlockStarts(b);
  }

  /** Of a block only its text is left. */
  lemma StripPastBlock(b: Block, m: Markup, rest: string)
    requires Encloses(b, m)
    ensures StripTags(Splitter.Show(b) + rest) == Texts(m) + StripTags(rest)
  {
    OpenIsTag(b);
    CloseIsTag(b);
    CloseStarts(b, rest);
    BlockIsSpelt(b, rest);
    StripPastTag(OpenOf(b), Show(m) + (b.close + rest));
    StripPastMarkup(m, b.close + rest);
    StripPastTag(b.close, rest);
  }

  lemma GapIsKept(rest: string)
    requires rest == "" || rest[0] == '<'
    ensures StripTags("\n\n" + rest) == "\n\n" + StripTags(rest)
  {
    StripPastText("\n\n", rest);
  }

  function Shown(blocks: seq<Block>): seq<string> {
    seq(|blocks|, i requires 0 <= i < |blocks| => Splitter.Show(blocks[i]))
  }

  function AllTexts(inners: seq<Markup>): seq<string> {
    seq(|inners|, i requires 0 <= i < |inners| => Texts(inners[i]))
  }

  ghost predicate EncloseAll(blocks: seq<Block>, inners: seq<Markup>) {
    |blocks| == |inners| && forall i :: 0 <= i < |blocks| ==> Encloses(blocks[i], inners[i])
  }

  lemma JoinedBefore(parts: seq<string>, separator: string, rest: string)
    requires |parts| > 1
    ensures Join(parts, separator) + rest
         == Join(parts[..|parts| - 1], separator) + (separator + (parts[|parts| - 1] + rest))
  {
  }

  lemma {:induction false} StripPastBlocks(blocks: seq<Block>, inners: seq<Markup>, rest: string)
    requires EncloseAll(blocks, inners)
    ensures StripTags(Join(Shown(blocks), "\n\n") + rest) == Join(AllTexts(inners), "\n\n") + StripTags(rest)
  {
    if blocks == [] {
      assert "" + rest == rest;
    } else {
      var n := |blocks| - 1;
      var last := Splitter.Show(blocks[n]) + rest;
      StripPastBlock(blocks[n], inners[n], rest);
      BlockStarts(blocks[n]);
      if n > 0 {
        StripPastBlocks(blocks[..n], inners[..n], "\n\n" + last);
        GapIsKept(last);
        assert Shown(blocks)[..n] == Shown(blocks[..n]) && AllTexts(inners)[..n] == AllTexts(inners[..n]);
        JoinedBefore(Shown(blocks), "\n\n", rest);
        JoinedBefore(AllTexts(inners), "\n\n", StripTags(rest));
      }
    }
  }

  function BlocksIn(body: Body): seq<Block> {
    match body
    case Last(_) => []
    case More(_, block, rest) => [block] + BlocksIn(rest)
  }

  lemma {:induction false} BlocksAreShown(body: Body)
    ensures Blocks(body) == Shown(BlocksIn(body))
  {
    if body.More? { BlocksAreShown(body.rest); }
  }

  /** What is withheld of a flat body is the text of its blocks, without the tags, a blank line between
      one block's and the next. */
  lemma SolutionIsTheBlocksText(body: Body, inners: seq<Markup>)
    requires IsFlat(body) && EncloseAll(BlocksIn(body), inners)
    ensures Solution(Print(body)) == Normalised(Join(AllTexts(inners), "\n\n"))
  {
    ScanUndoesPrint(body);
    BlocksAreShown(body);
    StripPastBlocks(BlocksIn(body), inners, "");
    var joined, texts := Join(Shown(BlocksIn(body)), "\n\n"), Join(AllTexts(inners), "\n\n");
    assert joined + "" == joined && texts + StripTags("") == texts;
  }
}
