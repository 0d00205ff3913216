/** grounding_mcp/corpus.py, CorpusIndex: built once over the content directory, asked by problem id. */
module CorpusIndex {
  import opened Wrappers
  import opened Builtins
  import opened Slug
  import opened Splitter
  import opened Corpus

  datatype Book = Book(slug: string, chapters: seq<Chapter>)

  function DocOf(f: Found): ChapterDoc {
    ChapterDoc(f.chapter, Visible(f.body), Solution(f.body))
  }

  /** The documents under their ids; of chapters that share an id the last stays. */
  function DocsOf(found: seq<Found>): map<string, ChapterDoc> {
    if found == [] then map[]
    else
      var last := found[|found| - 1];
      DocsOf(found[..|found| - 1])[ProblemId(last.chapter) := DocOf(last)]
  }

  function ChaptersOf(found: seq<Found>): seq<Chapter> {
    if found == [] then [] else ChaptersOf(found[..|found| - 1]) + [found[|found| - 1].chapter]
  }

  lemma OneMore(before: seq<Found>, found: seq<Found>, i: nat)
    requires i < |found|
    ensures var longer := before + found[..i + 1]; var f := found[i];
            && DocsOf(longer) == DocsOf(before + found[..i])[ProblemId(f.chapter) := DocOf(f)]
            && ChaptersOf(longer) == ChaptersOf(before + found[..i]) + [f.chapter]
  {
    var longer, shorter := before + found[..i + 1], before + found[..i];
    assert longer == shorter + [found[i]];
    DocsSnoc(shorter, found[i]);
    ChaptersSnoc(shorter, found[i]);
  }

  lemma DocsSnoc(found: seq<Found>, f: Found)
    ensures DocsOf(found + [f]) == DocsOf(found)[ProblemId(f.chapter) := DocOf(f)]
  {
    assert (found + [f])[..|found|] == found;
  }

  lemma ChaptersSnoc(found: seq<Found>, f: Found)
    ensures ChaptersOf(found + [f]) == ChaptersOf(found) + [f.chapter]
  {
    assert (found + [f])[..|found|] == found;
  }

  lemma FoundSnoc(content: seq<Entry>, i: nat)
    requires i < |content|
    ensures FoundIn(content[..i + 1])
         == if IsBook(content[i]) then FoundIn(content[..i]) + Walk(content[i].name, content[i].entries, [])
            else FoundIn(content[..i])
  {
    assert content[..i + 1][..i] == content[..i];
  }

  lemma BooksSnoc(books: seq<Book>, b: Book)
    ensures AllChapters(books + [b]) == AllChapters(books) + b.chapters
  {
    assert (books + [b])[..|books|] == books;
  }

  predicate IsBook(e: Entry) {
    e.Dir? && IncludesAsContent(e.name)
  }

  /** Everything the walks of all books find, book after book. */
  function FoundIn(content: seq<Entry>): seq<Found> {
    if content == [] then []
    else
      var e := content[|content| - 1];
      FoundIn(content[..|content| - 1]) + if IsBook(e) then Walk(e.name, e.entries, []) else []
  }

  function Lookup(docs: map<string, ChapterDoc>, problemId: string): Option<ChapterDoc> {
    var (book, slug) := Partition(problemId, '/');
    if slug == "" || !ChapterPathLike(slug) then None
    else if book + "/" + slug in docs then Some(docs[book + "/" + slug])
    else None
  }

  function AllChapters(books: seq<Book>): seq<Chapter> {
    if books == [] then [] else AllChapters(books[..|books| - 1]) + books[|books| - 1].chapters
  }

  class Index {
    var books: seq<Book>
    var docs: map<string, ChapterDoc>

    constructor (content: seq<Entry>)
      ensures docs == DocsOf(FoundIn(content))
      ensures AllChapters(books) == ChaptersOf(FoundIn(content))
    {
      books, docs := [], map[];
      new;
      for i := 0 to |content|
        invariant docs == DocsOf(FoundIn(content[..i]))
        invariant AllChapters(books) == ChaptersOf(FoundIn(content[..i]))
      {
        FoundSnoc(content, i);
        if IsBook(content[i]) {
          AddBook(content[i].name, content[i].entries, FoundIn(content[..i]));
        }
      }
      assert content[..|content|] == content;
    }

    method AddBook(name: string, entries: seq<Entry>, ghost before: seq<Found>)
      requires docs == DocsOf(before) && AllChapters(books) == ChaptersOf(before)
      modifies this
      ensures docs == DocsOf(before + Walk(name, entries, []))
      ensures AllChapters(books) == ChaptersOf(before + Walk(name, entries, []))
    {
      var found := Rec(name, entries, [], []);
      assert found == Walk(name, entries, []);
      var chapters := AddDocs(found, before);
      BooksSnoc(books, Book(name, chapters));
      books := books + [Book(name, chapters)];
    }

    method AddDocs(found: seq<Found>, ghost before: seq<Found>) returns (chapters: seq<Chapter>)
      requires docs == DocsOf(before)
      modifies this`docs
      ensures docs == DocsOf(before + found)
      ensures ChaptersOf(before) + chapters == ChaptersOf(before + found)
    {
      chapters := [];
      assert before + found[..0] == before;
      for i := 0 to |found|
        invariant docs == DocsOf(before + found[..i])
        invariant ChaptersOf(before) + chapters == ChaptersOf(before + found[..i])
      {
        OneMore(before, found, i);
        docs := docs[ProblemId(found[i].chapter) := DocOf(found[i])];
        chapters := chapters + [found[i].chapter];
      }
      assert found[..|found|] == found;
    }

    method Doc(problemId: string) returns (doc: Option<ChapterDoc>)
      ensures doc == Lookup(docs, problemId)
    {
      var (book, slug) := Partition(problemId, '/');
      if slug == "" || !ChapterPathLike(slug) {
        return None;
      }
      doc := if book + "/" + slug in docs then Some(docs[book + "/" + slug]) else None;
    }
  }

  // ---------------------------------------------------------------- ids resolve

  /** What the walk guarantees of a chapter's id. */
  predicate WellNamed(c: Chapter) {
    '/' !in c.book && c.slug != "" && ChapterPathLike(c.slug)
  }

  lemma {:induction false} WalkedAreWellNamed(book: string, entries: seq<Entry>, segs: seq<string>, f: Found)
    requires '/' !in book && f in Walk(book, entries, segs)
    ensures WellNamed(f.chapter)
  {
    WalkInvents(book, entries, segs, f);
    var path, file: Entry :| FoundAt(book, entries, segs, path, file, f);
    ChapterSlugsAreRecognised(segs + path);
  }

  ghost predicate ComesFromBook(content: seq<Entry>, f: Found) {
    exists e :: e in content && e.Dir? && IncludesAsContent(e.name) && ComesFrom(e.name, e.entries, [], f)
  }

  /** A chapter is found exactly when a walk of one of the content directories finds it. */
  lemma {:induction false} FoundInIsExact(content: seq<Entry>, f: Found)
    ensures f in FoundIn(content) <==> ComesFromBook(content, f)
  {
    if content != [] {
      var init, e := content[..|content| - 1], content[|content| - 1];
      FoundInIsExact(init, f);
      assert forall d :: d in content <==> d in init || d == e;
      if e.Dir? { WalkComesFrom(e.name, e.entries, [], f); }
    }
  }

  lemma {:induction false} FoundAreWellNamed(content: seq<Entry>, f: Found)
    requires f in FoundIn(content)
    ensures WellNamed(f.chapter)
  {
    var e := content[|content| - 1];
    if f in FoundIn(content[..|content| - 1]) {
      FoundAreWellNamed(content[..|content| - 1], f);
    } else {
      WalkedAreWellNamed(e.name, e.entries, [], f);
    }
  }

  /** The last chapter found under an id. */
  ghost predicate LastOfId(found: seq<Found>, id: string, k: nat) {
    && k < |found| && ProblemId(found[k].chapter) == id
    && forall l :: k < l < |found| ==> ProblemId(found[l].chapter) != id
  }

  lemma {:induction false} DocsHoldTheLast(found: seq<Found>, id: string)
    ensures id in DocsOf(found) <==> exists f :: f in found && ProblemId(f.chapter) == id
    ensures id in DocsOf(found) ==> exists k: nat :: LastOfId(found, id, k) && IsDocOf(DocsOf(found)[id], found[k])
  {
    if found != [] {
      var n := |found| - 1;
      DocsHoldTheLast(found[..n], id);
      assert forall f :: f in found <==> f in found[..n] || f == found[n];
      if ProblemId(found[n].chapter) == id {
        assert LastOfId(found, id, n);
      } else if id in DocsOf(found) {
        var k: nat :| LastOfId(found[..n], id, k) && IsDocOf(DocsOf(found[..n])[id], found[..n][k]);
        LastOfIdBefore(found, id, k);
      }
    }
  }

  lemma LastOfIdBefore(found: seq<Found>, id: string, k: nat)
    requires found != [] && ProblemId(found[|found| - 1].chapter) != id && LastOfId(found[..|found| - 1], id, k)
    ensures LastOfId(found, id, k)
  {
    var init := found[..|found| - 1];
    assert forall l :: k < l < |init| ==> found[l] == init[l];
  }

  /** The document of a chapter: what is visible of its body and what is withheld. */
  ghost predicate IsDocOf(doc: ChapterDoc, f: Found) {
    doc.chapter == f.chapter && doc.visible == Visible(f.body) && doc.solution == Solution(f.body)
  }

  lemma OwnIdResolves(docs: map<string, ChapterDoc>, c: Chapter)
    requires WellNamed(c)
    ensures Lookup(docs, ProblemId(c)) == if ProblemId(c) in docs then Some(docs[ProblemId(c)]) else None
  {
    PartitionAt(c.book, '/', c.slug);
  }

  lemma LookupIsById(docs: map<string, ChapterDoc>, id: string)
    ensures Lookup(docs, id).Some? ==> id in docs && Lookup(docs, id).value == docs[id]
  {
    FindCharParts(id, '/');
  }

  predicate IdsDiffer(found: seq<Found>) {
    forall f, g | f in found && g in found :: ProblemId(f.chapter) == ProblemId(g.chapter) ==> f == g
  }

  /** Over any content directory the lookup answers exactly the ids of the walked chapters: every
      chapter's id resolves, to the last chapter of that id, and to itself when ids are distinct; and
      nothing else does, so no other path can be asked for. */
  lemma {:induction false} LookupIsExact(content: seq<Entry>, id: string)
    ensures var found := FoundIn(content); var doc := Lookup(DocsOf(found), id);
            && (doc.Some? <==> exists f :: f in found && ProblemId(f.chapter) == id)
            && (doc.Some? ==> exists k: nat :: LastOfId(found, id, k) && IsDocOf(doc.value, found[k]))
            && (IdsDiffer(found) ==> forall f :: f in found && ProblemId(f.chapter) == id ==> doc.Some? && IsDocOf(doc.value, f))
  {
    var found := FoundIn(content);
    DocsHoldTheLast(found, id);
    LookupIsById(DocsOf(found), id);
    if f :| f in found && ProblemId(f.chapter) == id {
      FoundAreWellNamed(content, f);
      OwnIdResolves(DocsOf(found), f.chapter);
    }
  }
}
