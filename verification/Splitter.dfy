/** grounding_mcp/corpus.py, split_visible_solution: the scanner that keeps the worked solution out of
    what is shown. The three regular expressions are written out as scanners. */
module Splitter {
  import opened Wrappers
  import opened Builtins

  // ---------------------------------------------------------------- matching without regard to case

  /** A character against a lower-case pattern character under IGNORECASE, with the three letters
      beyond ASCII that fold to one of the tag names' letters. */
  predicate Matches(c: char, p: char) {
    Lower(c) == p || (p == 's' && c == '\U{017F}') || (p == 'i' && (c == '\U{0130}' || c == '\U{0131}'))
  }

  predicate StartsWith(s: string, pattern: string) {
    |pattern| <= |s| && forall i :: 0 <= i < |pattern| ==> Matches(s[i], pattern[i])
  }

  /** The characters between which \b finds no boundary. */
  predicate IsRegexWord(c: char) {
    IsAlnum(c) || c == '_'
  }

  predicate AtBoundary(s: string, n: nat) {
    n >= |s| || !IsRegexWord(s[n])
  }

  const OPEN := "<details"
  const CLOSE := "</details>"

  function Find(s: string, pattern: string): (r: Option<nat>)
    ensures r.Some? ==> r.value + |pattern| <= |s|
  {
    if StartsWith(s, pattern) then Some(0)
    else if s == "" then None
    else match Find(s[1..], pattern)
      case Some(k) => Some(k + 1)
      case None => None
  }

  /** Find returns the first occurrence. */
  lemma {:induction false} FindIsFirst(s: string, pattern: string)
    ensures var r := Find(s, pattern); r.Some? ==> StartsWith(s[r.value..], pattern)
    ensures var r := Find(s, pattern);
            forall i :: 0 <= i < (if r.Some? then r.value else |s|) ==> !StartsWith(s[i..], pattern)
  {
    assert s[0..] == s;
    if !StartsWith(s, pattern) && s != "" {
      FindIsFirst(s[1..], pattern);
      assert forall i :: 0 < i <= |s| ==> s[i..] == s[1..][i - 1..];
    }
  }

  // ---------------------------------------------------------------- the details scanner

  predicate Opens(s: string) {
    StartsWith(s, OPEN) && AtBoundary(s, |OPEN|)
  }

  /** The length of the opening tag at the head of s. */
  function OpenTag(s: string): (r: Option<nat>)
    ensures r.Some? ==> |OPEN| < r.value <= |s|
  {
    if !Opens(s) then None
    else match FindChar(s[|OPEN|..], '>')
      case Some(k) => Some(|OPEN| + k + 1)
      case None => None
  }

  /** The length of the block that the pattern matches at the head of s. */
  function BlockLen(s: string): (r: Option<nat>)
    ensures r.Some? ==> 0 < r.value <= |s|
  {
    match OpenTag(s)
    case None => None
    case Some(n) =>
      match Find(s[n..], CLOSE)
      case Some(k) => Some(n + k + |CLOSE|)
      case None => None
  }

  datatype Cut = Cut(plain: string, blocks: seq<string>)

  /** Leftmost matches that do not overlap: what lies outside them, and they themselves. */
  function Scan(s: string): Cut {
    if s == "" then Cut("", [])
    else match BlockLen(s)
      case Some(n) => var rest := Scan(s[n..]); Cut(rest.plain, [s[..n]] + rest.blocks)
      case None => var rest := Scan(s[1..]); Cut([s[0]] + rest.plain, rest.blocks)
  }

  // ---------------------------------------------------------------- normalising what is left

  function Newlines(s: string): (n: nat)
    ensures n <= |s|
  {
    if s != "" && s[0] == '\n' then 1 + Newlines(s[1..]) else 0
  }

  function CollapseBlankRuns(s: string): string {
    if s == "" then ""
    else
      var n := Newlines(s);
      if n == 0 then [s[0]] + CollapseBlankRuns(s[1..])
      else (if n >= 3 then "\n\n" else s[..n]) + CollapseBlankRuns(s[n..])
  }

  function Normalised(s: string): string {
    Strip(CollapseBlankRuns(s))
  }

  function SlashEnd(s: string): nat {
    if StartsWith(s, "</") then 2 else 1
  }

  /** A details or summary tag, opening or closing, begins at the head of s. */
  predicate TagOpens(s: string) {
    && StartsWith(s, "<")
    && (StartsWith(s[SlashEnd(s)..], "details") || StartsWith(s[SlashEnd(s)..], "summary"))
    && AtBoundary(s, SlashEnd(s) + 7)
  }

  /** The length of that tag. */
  function TagLen(s: string): (r: Option<nat>)
    ensures r.Some? ==> 0 < r.value <= |s|
  {
    if !TagOpens(s) then None
    else match FindChar(s[SlashEnd(s) + 7..], '>')
      case Some(k) => Some(SlashEnd(s) + 7 + k + 1)
      case None => None
  }

  function StripTags(s: string): string {
    if s == "" then ""
    else match TagLen(s)
      case Some(n) => StripTags(s[n..])
      case None => [s[0]] + StripTags(s[1..])
  }

  function Visible(body: string): string {
    Normalised(Scan(body).plain)
  }

  function Solution(body: string): string {
    Normalised(StripTags(Join(Scan(body).blocks, "\n\n")))
  }

  // ---------------------------------------------------------------- bodies as they are written

  datatype Block = Block(open: string, attrs: string, inner: string, close: string)

  /** A body: plain texts alternating with blocks. */
  datatype Body = Last(plain: string) | More(plain: string, block: Block, rest: Body)

  function Show(b: Block): string {
    b.open + b.attrs + ">" + b.inner + b.close
  }

  function Print(body: Body): string {
    match body
    case Last(plain) => plain
    case More(plain, block, rest) => plain + (Show(block) + Print(rest))
  }

  function Plains(body: Body): string {
    match body
    case Last(plain) => plain
    case More(plain, _, rest) => plain + Plains(rest)
  }

  function Blocks(body: Body): seq<string> {
    match body
    case Last(_) => []
    case More(_, block, rest) => [Show(block)] + Blocks(rest)
  }

  /** A block with well-formed tags, whatever it encloses. */
  predicate Tagged(b: Block) {
    && |b.open| == |OPEN| && StartsWith(b.open, OPEN)
    && '>' !in b.attrs && AtBoundary(b.attrs, 0)
    && |b.close| == |CLOSE| && StartsWith(b.close, CLOSE)
  }

  predicate HasNoClose(inner: string) {
    forall i :: 0 <= i < |inner| ==> !StartsWith(inner[i..], CLOSE)
  }

  predicate Clean(plain: string) {
    forall i :: 0 <= i < |plain| ==> !Opens(plain[i..])
  }

  /** Flat sibling blocks: no plain text opens one, none closes early. */
  predicate IsFlat(body: Body) {
    match body
    case Last(plain) => Clean(plain)
    case More(plain, block, rest) => Clean(plain) && Tagged(block) && HasNoClose(block.inner) && IsFlat(rest)
  }

  // ---------------------------------------------------------------- round trip

  /** No occurrence of a tag straddles the start of another: whether one begins in `before` can be
      seen from `before` alone. */
  lemma NoStraddle(before: string, after: string, pattern: string)
    requires before != "" && (after == "" || after[0] == '<')
    requires forall j :: 0 < j < |pattern| ==> pattern[j] != '<'
    ensures StartsWith(before + after, pattern) <==> StartsWith(before, pattern)
  {
    if |pattern| <= |before| {
      assert forall i :: 0 <= i < |pattern| ==> (before + after)[i] == before[i];
    } else if |pattern| <= |before + after| {
      assert !Matches((before + after)[|before|], pattern[|before|]);
    }
  }

  lemma StartsWithPrefix(before: string, after: string, pattern: string)
    requires StartsWith(before, pattern)
    ensures StartsWith(before + after, pattern)
  {
    assert forall i :: 0 <= i < |pattern| ==> (before + after)[i] == before[i];
  }

  lemma Suffix(a: string, b: string, i: nat)
    requires i <= |a|
    ensures (a + b)[i..] == a[i..] + b
  {
  }

  lemma NoCloseTail(inner: string)
    requires HasNoClose(inner) && inner != ""
    ensures !StartsWith(inner, CLOSE) && HasNoClose(inner[1..])
  {
    assert inner[0..] == inner;
    forall i | 0 <= i < |inner[1..]| ensures !StartsWith(inner[1..][i..], CLOSE) {
      assert inner[1..][i..] == inner[i + 1..];
    }
  }

  lemma FindSkips(s: string, tail: string, n: nat)
    requires s != "" && !StartsWith(s, CLOSE) && tail == s[1..] && Find(tail, CLOSE) == Some(n)
    ensures Find(s, CLOSE) == Some(n + 1)
  {
  }

  lemma {:induction false} FindCloseAt(inner: string, tail: string)
    requires HasNoClose(inner) && StartsWith(tail, CLOSE) && tail[0] == '<'
    ensures Find(inner + tail, CLOSE) == Some(|inner|)
  {
    if inner == "" {
      assert inner + tail == tail;
    } else {
      NoCloseTail(inner);
      NoStraddle(inner, tail, CLOSE);
      FindCloseAt(inner[1..], tail);
      Suffix(inner, tail, 1);
      FindSkips(inner + tail, inner[1..] + tail, |inner| - 1);
    }
  }

  lemma FindCloseEarly(inner: string, after: string, i: nat)
    requires i < |inner| && StartsWith(inner[i..], CLOSE)
    ensures Find(inner + after, CLOSE).Some? && Find(inner + after, CLOSE).value <= i
  {
    FindIsFirst(inner + after, CLOSE);
    StartsWithPrefix(inner[i..], after, CLOSE);
    Suffix(inner, after, i);
  }

  /** A well-tagged block is cut out whole, whatever follows it, if and only if nothing inside it
      closes it early. */
  lemma BlockIsCutWholeIff(b: Block, rest: string)
    requires Tagged(b)
    ensures BlockLen(Show(b) + rest) == Some(|Show(b)|) <==> HasNoClose(b.inner)
  {
    var n := |OPEN| + |b.attrs| + 1;
    TaggedOpens(b, rest);
    InsideBlock(b, rest);
    ShowLength(b);
    BlockLenAt(Show(b) + rest, n, b.inner + (b.close + rest));
    CloseIsFoundIff(b.inner, b.close, rest);
    assert |Show(b)| == n + |b.inner| + |CLOSE|;
  }

  lemma CloseIsFoundIff(inner: string, close: string, rest: string)
    requires |close| == |CLOSE| && StartsWith(close, CLOSE)
    ensures Find(inner + (close + rest), CLOSE) == Some(|inner|) <==> HasNoClose(inner)
  {
    if HasNoClose(inner) {
      StartsWithPrefix(close, rest, CLOSE);
      assert Matches(close[0], CLOSE[0]);
      FindCloseAt(inner, close + rest);
    } else {
      var i :| 0 <= i < |inner| && StartsWith(inner[i..], CLOSE);
      FindCloseEarly(inner, close + rest, i);
    }
  }

  lemma BlockLenAt(s: string, n: nat, tail: string)
    requires OpenTag(s) == Some(n) && s[n..] == tail
    ensures BlockLen(s) == match Find(tail, CLOSE)
                           case Some(k) => Some(n + k + |CLOSE|)
                           case None => None
  {
  }

  lemma ShowLength(b: Block)
    requires Tagged(b)
    ensures |Show(b)| == |OPEN| + |b.attrs| + 1 + |b.inner| + |CLOSE|
  {
  }

  lemma InsideBlock(b: Block, rest: string)
    ensures (Show(b) + rest)[|b.open| + |b.attrs| + 1..] == b.inner + (b.close + rest)
  {
  }

  lemma TaggedOpens(b: Block, rest: string)
    requires Tagged(b)
    ensures OpenTag(Show(b) + rest) == Some(|OPEN| + |b.attrs| + 1)
  {
    var s := Show(b) + rest;
    var after := b.attrs + ">" + (b.inner + b.close + rest);
    assert s == b.open + after;
    StartsWithPrefix(b.open, after, OPEN);
    assert s[|OPEN|..] == after;
    assert s[|OPEN|] == after[0];
    FindCharAt(b.attrs, '>', b.inner + b.close + rest);
  }

  lemma PlainOpensNothing(plain: string, rest: string)
    requires Clean(plain) && plain != "" && (rest == "" || rest[0] == '<')
    ensures !Opens(plain + rest)
  {
    assert plain[0..] == plain;
    if StartsWith(plain + rest, OPEN) {
      NoStraddle(plain, rest, OPEN);
      assert |plain| > |OPEN| ==> (plain + rest)[|OPEN|] == plain[|OPEN|];
    }
  }

  lemma TailIsClean(plain: string)
    requires Clean(plain) && plain != ""
    ensures Clean(plain[1..])
  {
    forall i | 0 <= i < |plain[1..]| ensures !Opens(plain[1..][i..]) {
      assert plain[1..][i..] == plain[i + 1..];
    }
  }

  lemma {:induction false} ScanPastPlain(plain: string, rest: string)
    requires Clean(plain) && (rest == "" || rest[0] == '<')
    ensures Scan(plain + rest) == Cut(plain + Scan(rest).plain, Scan(rest).blocks)
  {
    if plain == "" {
      assert plain + rest == rest;
    } else {
      PlainOpensNothing(plain, rest);
      TailIsClean(plain);
      HeadAndTail(plain, rest);
      ScanPastPlain(plain[1..], rest);
      ScanStep(plain + rest, plain[1..] + rest);
      HeadAndTail(plain, Scan(rest).plain);
    }
  }

  lemma ScanStep(s: string, tail: string)
    requires s != "" && !Opens(s) && tail == s[1..]
    ensures Scan(s) == Cut([s[0]] + Scan(tail).plain, Scan(tail).blocks)
  {
  }

  lemma HeadAndTail(s: string, t: string)
    requires s != ""
    ensures [s[0]] + (s[1..] + t) == s + t && (s + t)[0] == s[0] && (s + t)[1..] == s[1..] + t
  {
  }

  /** Round trip: from a printed flat body the scanner recovers exactly the blocks and the plain texts. */
  lemma {:induction false} ScanUndoesPrint(body: Body)
    requires IsFlat(body)
    ensures Scan(Print(body)) == Cut(Plains(body), Blocks(body))
  {
    match body
    case Last(plain) =>
      ScanPastPlain(plain, "");
      assert plain + "" == plain;
    case More(plain, block, rest) =>
      ScanUndoesPrint(rest);
      BlockIsCutWholeIff(block, Print(rest));
      var s := Show(block) + Print(rest);
      assert Matches(block.open[0], OPEN[0]) && s[0] == block.open[0];
      ScanPastPlain(plain, s);
      assert s[|Show(block)|..] == Print(rest) && s[..|Show(block)|] == Show(block);
  }

  /** Non-interference: flat bodies with the same plain text look the same, whatever their blocks hold
      and however many there are. */
  lemma VisibleIgnoresBlocks(a: Body, b: Body)
    requires IsFlat(a) && IsFlat(b) && Plains(a) == Plains(b)
    ensures Visible(Print(a)) == Visible(Print(b)) == Normalised(Plains(a))
  {
    ScanUndoesPrint(a);
    ScanUndoesPrint(b);
  }

  /** Flatness cannot be dropped: with a block nested in a block, all that follows the inner block's end
      shows through. */
  lemma NestedBlocksLeak(b: Block, hidden: string, secret: string)
    requires Tagged(b) && HasNoClose(hidden) && b.inner == hidden + CLOSE + secret && Clean(secret + b.close)
    ensures !HasNoClose(b.inner)
    ensures Visible(Show(b)) == Normalised(secret + b.close)
  {
    var first := Block(b.open, b.attrs, hidden, CLOSE);
    var body := More("", first, Last(secret + b.close));
    assert Print(body) == Show(b);
    ScanUndoesPrint(body);
    assert Plains(body) == secret + b.close;
    InnerCloses(hidden, CLOSE, secret);
  }

  lemma InnerCloses(hidden: string, close: string, secret: string)
    requires close != "" && StartsWith(close, CLOSE)
    ensures !HasNoClose(hidden + close + secret)
  {
    var inner := hidden + close + secret;
    StartsWithPrefix(close, secret, CLOSE);
    assert inner[|hidden|..] == close + secret;
  }
}
