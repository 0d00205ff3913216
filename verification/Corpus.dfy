/** grounding_mcp/corpus.py: the directory tree walked into chapters, and the index from problem ids to
    chapter documents. A directory's entries are listed in the order in which they are visited. */
module Corpus {
  import opened Wrappers
  import opened Builtins
  import opened Slug

  /** A file comes with what its text parses to: title, summary and the body after the frontmatter.
      Anything that is neither file nor directory is `Other`. */
  datatype Entry =
    | File(name: string, title: string, summary: Option<string>, body: string)
    | Dir(name: string, entries: seq<Entry>)
    | Other(name: string)

  datatype Chapter = Chapter(book: string, slug: string, title: string, path: seq<string>, isProblem: bool,
                             summary: Option<string>)

  datatype ChapterDoc = ChapterDoc(chapter: Chapter, visible: string, solution: string)

  function ProblemId(c: Chapter): string {
    c.book + "/" + c.slug
  }

  // ---------------------------------------------------------------- the walk

  predicate IsHidden(name: string) {
    name != "" && (name[0] == '_' || name[0] == '.')
  }

  function ChapterOf(book: string, path: seq<string>, file: Entry): Chapter
    requires file.File? && path != []
  {
    Chapter(book, ChapterSlug(path), file.title, path,
            exists i | 0 <= i < |path| - 1 :: StripOrderPrefix(path[i]) == "problems", file.summary)
  }

  datatype Found = Found(chapter: Chapter, body: string)

  /** What one entry contributes to the walk. */
  function WalkEntry(book: string, entry: Entry, segs: seq<string>): seq<Found>
    decreases entry, 1
  {
    if IsHidden(entry.name) then []
    else match entry
      case File(name, _, _, body) =>
        if !EndsWith(name, ".md") || ChapterSlug(segs + [name]) == "" then []
        else [Found(ChapterOf(book, segs + [name], entry), body)]
      case Dir(name, entries) => if IncludesAsContent(name) then Walk(book, entries, segs + [name]) else []
      case Other(_) => []
  }

  function Walk(book: string, entries: seq<Entry>, segs: seq<string>): seq<Found>
    decreases entries, 0
  {
    if entries == [] then []
    else WalkEntry(book, entries[0], segs) + Walk(book, entries[1..], segs)
  }

  /** rec: appends to `out`. */
  method Rec(book: string, entries: seq<Entry>, segs: seq<string>, out: seq<Found>) returns (grown: seq<Found>)
    ensures grown == out + Walk(book, entries, segs)
    decreases entries
  {
    grown := out;
    var rest := entries;
    while rest != []
      invariant |rest| <= |entries| && rest == entries[|entries| - |rest|..]
      invariant grown + Walk(book, rest, segs) == out + Walk(book, entries, segs)
      decreases |rest|
    {
      var entry := rest[0];
      ghost var before := grown;
      if !IsHidden(entry.name) {
        match entry
        case File(name, _, _, body) =>
          var slug := MakeChapterSlug(segs + [name]);
          if EndsWith(name, ".md") && slug != "" {
            grown := grown + [Found(ChapterOf(book, segs + [name], entry), body)];
          }
        case Dir(name, children) =>
          if IncludesAsContent(name) {
            assert entry in entries;
            grown := Rec(book, children, segs + [name], grown);
          }
        case Other(_) =>
      }
      WalkStep(book, rest, segs, before, grown);
      rest := rest[1..];
    }
  }

  lemma WalkStep(book: string, rest: seq<Entry>, segs: seq<string>, before: seq<Found>, grown: seq<Found>)
    requires rest != [] && grown == before + WalkEntry(book, rest[0], segs)
    ensures grown + Walk(book, rest[1..], segs) == before + Walk(book, rest, segs)
  {
    Regroup(before, WalkEntry(book, rest[0], segs), Walk(book, rest[1..], segs));
  }

  lemma Regroup<T>(a: seq<T>, b: seq<T>, c: seq<T>)
    ensures (a + b) + c == a + (b + c)
  {
  }

  // ---------------------------------------------------------------- each eligible file exactly once

  /** The file at a path of a tree, read off directly. */
  ghost predicate FileAt(entries: seq<Entry>, path: seq<string>, file: Entry)
    requires path != []
    decreases |path|
  {
    exists e :: e in entries && e.name == path[0]
      && if |path| == 1 then e.File? && e == file else e.Dir? && FileAt(e.entries, path[1..], file)
  }

  /** Which paths make chapters. */
  predicate Eligible(segs: seq<string>, path: seq<string>)
    requires path != []
  {
    && (path[|path| - 1] == "" || path[|path| - 1][0] !in "_.") && EndsWith(path[|path| - 1], ".md")
    && (forall i :: 0 <= i < |path| - 1 ==> IncludesAsContent(path[i]))
    && ChapterSlug(segs + path) != ""
  }

  lemma ContentIsNotHidden(name: string)
    requires IncludesAsContent(name)
    ensures !IsHidden(name)
  {
  }

  lemma {:induction false} WalkCovers(book: string, entries: seq<Entry>, segs: seq<string>, e: Entry)
    requires e in entries
    ensures forall f :: f in WalkEntry(book, e, segs) ==> f in Walk(book, entries, segs)
  {
    if entries[0] != e {
      WalkCovers(book, entries[1..], segs, e);
    }
  }

  ghost predicate FoundAt(book: string, entries: seq<Entry>, segs: seq<string>, path: seq<string>, file: Entry, f: Found) {
    path != [] && file.File? && FileAt(entries, path, file) && Eligible(segs, path)
    && MadeFrom(book, segs + path, file, f)
  }

  /** The chapter a file makes, field by field. */
  ghost predicate MadeFrom(book: string, path: seq<string>, file: Entry, f: Found)
    requires path != [] && file.File?
  {
    && f.body == file.body && f.chapter.book == book && f.chapter.slug == ChapterSlug(path)
    && f.chapter.title == file.title && f.chapter.path == path && f.chapter.summary == file.summary
    && (f.chapter.isProblem <==> exists i | 0 <= i < |path| - 1 :: StripOrderPrefix(path[i]) == "problems")
  }

  ghost predicate ComesFrom(book: string, entries: seq<Entry>, segs: seq<string>, f: Found) {
    exists path, file: Entry :: FoundAt(book, entries, segs, path, file, f)
  }

  lemma FileIsWalked(book: string, segs: seq<string>, path: seq<string>, file: Entry)
    requires |path| == 1 && file.File? && file.name == path[0] && Eligible(segs, path)
    ensures Found(ChapterOf(book, segs + path, file), file.body) in WalkEntry(book, file, segs)
  {
    assert path == [file.name];
  }

  lemma PathBelow(segs: seq<string>, path: seq<string>)
    requires |path| > 1
    ensures segs + path == segs + [path[0]] + path[1..]
    ensures path[1..][|path| - 2] == path[|path| - 1]
    ensures forall i :: 0 <= i < |path| - 2 ==> path[1..][i] == path[i + 1]
  {
    assert path == [path[0]] + path[1..];
  }

  lemma EligibleBelow(segs: seq<string>, path: seq<string>)
    requires |path| > 1 && Eligible(segs, path)
    ensures IncludesAsContent(path[0]) && Eligible(segs + [path[0]], path[1..])
  {
    PathBelow(segs, path);
    var rest := path[1..];
    forall i | 0 <= i < |rest| - 1 ensures IncludesAsContent(rest[i]) {
      assert IncludesAsContent(path[i + 1]);
    }
  }

  /** The walk under `segs` finds every eligible file. */
  lemma {:induction false} WalkFinds(book: string, entries: seq<Entry>, segs: seq<string>, path: seq<string>, file: Entry, f: Found)
    requires FoundAt(book, entries, segs, path, file, f)
    ensures f in Walk(book, entries, segs)
    decreases |path|
  {
    var e :| e in entries && e.name == path[0]
      && if |path| == 1 then e.File? && e == file else e.Dir? && FileAt(e.entries, path[1..], file);
    if |path| == 1 {
      FileIsWalked(book, segs, path, file);
    } else {
      PathBelow(segs, path);
      EligibleBelow(segs, path);
      ContentIsNotHidden(path[0]);
      WalkFinds(book, e.entries, segs + [e.name], path[1..], file, f);
    }
    WalkCovers(book, entries, segs, e);
  }

  /** And it finds nothing else. */
  lemma {:induction false} WalkInvents(book: string, entries: seq<Entry>, segs: seq<string>, f: Found)
    requires f in Walk(book, entries, segs)
    ensures ComesFrom(book, entries, segs, f)
    decreases entries
  {
    var e := entries[0];
    if f in WalkEntry(book, e, segs) {
      if e.File? {
        FileItself(book, entries, segs, e, f);
      } else {
        WalkInvents(book, e.entries, segs + [e.name], f);
        FromDirectory(book, entries, segs, e, f);
      }
    } else {
      WalkInvents(book, entries[1..], segs, f);
      FromRest(book, entries, segs, f);
    }
  }

  lemma FileItself(book: string, entries: seq<Entry>, segs: seq<string>, e: Entry, f: Found)
    requires e in entries && e.File? && f in WalkEntry(book, e, segs)
    ensures ComesFrom(book, entries, segs, f)
  {
    assert FileAt(entries, [e.name], e) && Eligible(segs, [e.name]);
    assert FoundAt(book, entries, segs, [e.name], e, f);
  }

  lemma FromDirectory(book: string, entries: seq<Entry>, segs: seq<string>, e: Entry, f: Found)
    requires e in entries && e.Dir? && IncludesAsContent(e.name) && ComesFrom(book, e.entries, segs + [e.name], f)
    ensures ComesFrom(book, entries, segs, f)
  {
    var path, file: Entry :| FoundAt(book, e.entries, segs + [e.name], path, file, f);
    Deepen(book, entries, segs, e, path, file, f);
  }

  lemma Deepen(book: string, entries: seq<Entry>, segs: seq<string>, e: Entry, path: seq<string>, file: Entry, f: Found)
    requires e in entries && e.Dir? && IncludesAsContent(e.name)
    requires FoundAt(book, e.entries, segs + [e.name], path, file, f)
    ensures FoundAt(book, entries, segs, [e.name] + path, file, f)
  {
    Regroup(segs, [e.name], path);
    FileBelow(entries, e, path, file);
    DeeperIsEligible(segs, e.name, path, [e.name] + path);
  }

  lemma FileBelow(entries: seq<Entry>, e: Entry, path: seq<string>, file: Entry)
    requires e in entries && e.Dir? && path != [] && FileAt(e.entries, path, file)
    ensures FileAt(entries, [e.name] + path, file)
  {
    var longer := [e.name] + path;
    assert longer[1..] == path && longer[0] == e.name && |longer| > 1;
    assert FileAt(e.entries, longer[1..], file);
  }

  lemma DeeperIsEligible(segs: seq<string>, name: string, path: seq<string>, longer: seq<string>)
    requires path != [] && longer == [name] + path && IncludesAsContent(name) && Eligible(segs + [name], path)
    ensures Eligible(segs, longer)
  {
    Regroup(segs, [name], path);
    AllContent(name, path);
  }

  lemma AllContent(name: string, path: seq<string>)
    requires path != [] && IncludesAsContent(name) && forall i :: 0 <= i < |path| - 1 ==> IncludesAsContent(path[i])
    ensures forall i :: 0 <= i < |path| ==> IncludesAsContent(([name] + path)[i])
    ensures ([name] + path)[|path|] == path[|path| - 1]
  {
    forall i | 0 <= i < |path| ensures IncludesAsContent(([name] + path)[i]) {
      if i > 0 { assert ([name] + path)[i] == path[i - 1]; }
    }
  }

  lemma FromRest(book: string, entries: seq<Entry>, segs: seq<string>, f: Found)
    requires entries != [] && ComesFrom(book, entries[1..], segs, f)
    ensures ComesFrom(book, entries, segs, f)
  {
    var path, file: Entry :| FoundAt(book, entries[1..], segs, path, file, f);
    FileStays(entries, path, file);
    assert FoundAt(book, entries, segs, path, file, f);
  }

  lemma FileStays(entries: seq<Entry>, path: seq<string>, file: Entry)
    requires entries != [] && path != [] && FileAt(entries[1..], path, file)
    ensures FileAt(entries, path, file)
  {
    var e :| e in entries[1..] && e.name == path[0]
      && if |path| == 1 then e.File? && e == file else e.Dir? && FileAt(e.entries, path[1..], file);
    assert e in entries;
  }

  /** No two entries of one directory share a name, at any depth. */
  predicate NamesDiffer(entries: seq<Entry>) {
    && (forall i, j :: 0 <= i < j < |entries| ==> entries[i].name != entries[j].name)
    && (forall e | e in entries :: e.Dir? ==> NamesDiffer(e.entries))
  }

  ghost predicate Under(segs: seq<string>, name: string, f: Found) {
    |f.chapter.path| > |segs| && f.chapter.path[..|segs|] == segs && f.chapter.path[|segs|] == name
  }

  lemma {:induction false} EntryPathsAreUnder(book: string, e: Entry, segs: seq<string>)
    ensures forall f :: f in WalkEntry(book, e, segs) ==> Under(segs, e.name, f)
    decreases e, 1
  {
    if e.Dir? {
      WalkPathsAreUnder(book, e.entries, segs + [e.name]);
      forall f | f in WalkEntry(book, e, segs) ensures Under(segs, e.name, f) {
        assert UnderOne(e.entries, segs + [e.name], f);
        var deeper := f.chapter.path[..|segs| + 1];
        assert deeper == segs + [e.name];
        assert f.chapter.path[..|segs|] == deeper[..|segs|] && f.chapter.path[|segs|] == deeper[|segs|];
      }
    }
  }

  ghost predicate UnderOne(entries: seq<Entry>, segs: seq<string>, f: Found) {
    exists e :: e in entries && Under(segs, e.name, f)
  }

  lemma {:induction false} WalkPathsAreUnder(book: string, entries: seq<Entry>, segs: seq<string>)
    ensures forall f :: f in Walk(book, entries, segs) ==> UnderOne(entries, segs, f)
    decreases entries, 0
  {
    if entries != [] {
      EntryPathsAreUnder(book, entries[0], segs);
      WalkPathsAreUnder(book, entries[1..], segs);
      forall f | f in Walk(book, entries, segs) ensures UnderOne(entries, segs, f) {
        if f in WalkEntry(book, entries[0], segs) {
          assert entries[0] in entries && Under(segs, entries[0].name, f);
        } else {
          assert UnderOne(entries[1..], segs, f);
        }
      }
    }
  }

  predicate PathsDiffer(found: seq<Found>) {
    forall i, j :: 0 <= i < j < |found| ==> found[i].chapter.path != found[j].chapter.path
  }

  /** No file is emitted twice. */
  lemma {:induction false} WalkRepeatsNothing(book: string, entries: seq<Entry>, segs: seq<string>)
    requires NamesDiffer(entries)
    ensures PathsDiffer(Walk(book, entries, segs))
    decreases entries
  {
    if entries != [] {
      var e, rest := entries[0], entries[1..];
      WalkRepeatsNothing(book, rest, segs);
      if e.Dir? { WalkRepeatsNothing(book, e.entries, segs + [e.name]); }
      var here, there := WalkEntry(book, e, segs), Walk(book, rest, segs);
      EntryPathsAreUnder(book, e, segs);
      WalkPathsAreUnder(book, rest, segs);
      forall i, j | 0 <= i < |here| && 0 <= j < |there| ensures here[i].chapter.path != there[j].chapter.path {
        assert here[i] in here && there[j] in there;
        assert UnderOne(rest, segs, there[j]);
      }
      assert PathsDiffer(here + there);
    }
  }

  lemma WalkComesFrom(book: string, entries: seq<Entry>, segs: seq<string>, f: Found)
    ensures f in Walk(book, entries, segs) <==> ComesFrom(book, entries, segs, f)
  {
    if f in Walk(book, entries, segs) {
      WalkInvents(book, entries, segs, f);
    }
    if ComesFrom(book, entries, segs, f) {
      var path, file: Entry :| FoundAt(book, entries, segs, path, file, f);
      WalkFinds(book, entries, segs, path, file, f);
    }
  }

  /** Over any directory tree: a chapter is emitted for a file if and only if the file lies at a path of
      slug-like, unreserved, unhidden directories, is an unhidden markdown file, and its slug is not
      empty; and no file is emitted twice. */
  lemma WalkIsExact(book: string, entries: seq<Entry>, f: Found)
    requires NamesDiffer(entries)
    ensures f in Walk(book, entries, []) <==> ComesFrom(book, entries, [], f)
    ensures PathsDiffer(Walk(book, entries, []))
  {
    WalkRepeatsNothing(book, entries, []);
    WalkComesFrom(book, entries, [], f);
  }
}
