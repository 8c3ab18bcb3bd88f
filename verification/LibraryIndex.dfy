/** Library books, and lexical scoring of one entry against a query (library/models.py, library/retrieval.py). */
module LibraryScoring {
  import opened Outcomes
  import opened Text
  import opened UsageNotes

  datatype Entry = Entry(
    entryId: string, title: string, summary: string, aliases: seq<string>, tags: seq<string>, useWhen: seq<string>,
    avoidWhen: seq<string>, structure: seq<string>, tradeoffs: seq<string>, pitfalls: seq<string>, hint: string,
    complexity: seq<string>, notes: seq<Note>, provenance: seq<string>, trust: string, validation: string, schema: int)

  datatype Book = Book(
    bookId: string, title: string, version: string, description: string, entries: seq<Entry>, provenance: seq<string>,
    trust: string, validation: string, schema: int)

  /** The terms of fields joined by spaces, taken as the union of the fields' terms. */
  function Joined(lex: Lexer, parts: seq<string>): set<string> {
    set p, t | p in parts && t in lex(p) :: t
  }

  function IndexedParts(b: Book, e: Entry): seq<string> {
    [b.bookId, b.title, b.description, e.entryId, e.title, e.summary] + e.aliases + e.tags + e.useWhen + e.avoidWhen
    + e.structure + e.tradeoffs + e.pitfalls + [e.hint]
  }

  function NonEmpty(parts: seq<string>): (r: seq<string>)
    ensures forall p :: p in r <==> p in parts && p != ""
  {
    if parts == [] then []
    else
      assert parts == [parts[0]] + parts[1..];
      (if parts[0] == "" then [] else [parts[0]]) + NonEmpty(parts[1..])
  }

  /** `_index_terms` */
  function IndexTerms(lex: Lexer, b: Book, e: Entry): set<string> {
    Joined(lex, NonEmpty(IndexedParts(b, e)))
  }

  datatype Fit = Recommended | Caution | Avoid

  datatype Row = Row(book: Book, entry: Entry, score: nat, fit: Fit, matched: set<string>, reasons: seq<string>)

  const MIN_SCORE := 4

  datatype Field = Field(parts: seq<string>, weight: nat, reason: string)

  function Weighted(b: Book, e: Entry): seq<Field> {
    [Field([e.title] + e.aliases, 7, "name/alias match"),
     Field(e.tags, 6, "tag match"),
     Field([e.summary], 4, "summary match"),
     Field(e.useWhen, 4, "use-condition match"),
     Field(e.structure, 2, "structure match"),
     Field(e.tradeoffs, 2, "tradeoff match"),
     Field(e.pitfalls, 1, "pitfall match"),
     Field([b.title, b.description], 1, "book match")]
  }

  datatype Tally = Tally(score: nat, matched: set<string>, reasons: seq<string>)

  function Points(hits: nat, weight: nat): nat {
    hits * weight
  }

  function Tallied(lex: Lexer, terms: set<string>, fields: seq<Field>): Tally {
    if fields == [] then Tally(0, {}, [])
    else
      var f, rest := fields[|fields| - 1], Tallied(lex, terms, fields[..|fields| - 1]);
      var overlap := terms * Joined(lex, f.parts);
      Tally(rest.score + Points(|overlap|, f.weight), rest.matched + overlap,
            if overlap == {} then rest.reasons else rest.reasons + [f.reason])
  }

  function AnchorParts(e: Entry): seq<string> {
    [e.title] + e.aliases + e.tags + [e.summary] + e.useWhen
  }

  /** `_score` */
  function Score(lex: Lexer, terms: set<string>, b: Book, e: Entry): Option<Row> {
    var tally := Tallied(lex, terms, Weighted(b, e));
    var avoid, use := terms * Joined(lex, e.avoidWhen), terms * Joined(lex, e.useWhen);
    if terms * Joined(lex, AnchorParts(e)) == {} && avoid == {} then None
    else if tally.score < MIN_SCORE then None
    else if avoid != {} then
      Some(Row(b, e, tally.score + |avoid| * 2, if |avoid| >= (if |use| > 1 then |use| else 1) then Avoid else Caution,
               tally.matched + avoid, tally.reasons + ["constraint conflict"]))
    else
      var named := terms * Joined(lex, [e.title] + e.aliases + e.tags);
      var fit := if use != {} || named != {} then Recommended else Caution;
      Some(Row(b, e, tally.score, fit, tally.matched, tally.reasons))
  }

  /** An entry that scores at all shares a term with its index, so the postings cannot miss it. */
  lemma ScoredIsIndexed(lex: Lexer, terms: set<string>, b: Book, e: Entry)
    requires lex("") == {}
    requires Score(lex, terms, b, e).Some?
    ensures terms * IndexTerms(lex, b, e) != {}
  {
    var anchors := terms * Joined(lex, AnchorParts(e));
    var avoid := terms * Joined(lex, e.avoidWhen);
    var parts := if anchors != {} then AnchorParts(e) else e.avoidWhen;
    var t :| t in terms * Joined(lex, parts);
    var p :| p in parts && t in lex(p);
    assert p in IndexedParts(b, e);
    assert p in NonEmpty(IndexedParts(b, e));
    assert t in terms * IndexTerms(lex, b, e);
  }

  // ----- the ranking key -----

  /** `(-score, fit == "avoid", book_id, entry_id)`, compared as tuples. */
  predicate Before(a: Row, b: Row) {
    a.score > b.score ||
    (a.score == b.score &&
      ((!a.fit.Avoid? && b.fit.Avoid?) ||
       (a.fit.Avoid? == b.fit.Avoid? &&
         ((a.book.bookId != b.book.bookId && AtMost(a.book.bookId, b.book.bookId)) ||
          (a.book.bookId == b.book.bookId && AtMost(a.entry.entryId, b.entry.entryId))))))
  }

  lemma BeforeTotal(a: Row, b: Row)
    ensures Before(a, b) || Before(b, a)
  {
    AtMostTotal(a.book.bookId, b.book.bookId);
    AtMostTotal(a.entry.entryId, b.entry.entryId);
  }

  lemma BeforeTransitive(a: Row, b: Row, c: Row)
    requires Before(a, b) && Before(b, c)
    ensures Before(a, c)
  {
    if AtMost(a.book.bookId, b.book.bookId) && AtMost(b.book.bookId, c.book.bookId) {
      AtMostTransitive(a.book.bookId, b.book.bookId, c.book.bookId);
      if a.book.bookId == c.book.bookId {
        AtMostAntisymmetric(a.book.bookId, b.book.bookId);
      }
    }
    if AtMost(a.entry.entryId, b.entry.entryId) && AtMost(b.entry.entryId, c.entry.entryId) {
      AtMostTransitive(a.entry.entryId, b.entry.entryId, c.entry.entryId);
    }
  }

  /** Rows that the key cannot tell apart carry the same ids. */
  lemma SameKeySameIds(a: Row, b: Row)
    requires Before(a, b) && Before(b, a)
    ensures a.book.bookId == b.book.bookId && a.entry.entryId == b.entry.entryId
  {
    if a.book.bookId != b.book.bookId {
      AtMostAntisymmetric(a.book.bookId, b.book.bookId);
    }
    AtMostAntisymmetric(a.entry.entryId, b.entry.entryId);
  }
}

/** The postings index and the retriever over it, against a scan of every entry. */
module LibraryIndex {
  import opened Outcomes
  import opened Sequences
  import opened Sorting
  import opened Listing
  import opened Text
  import opened LibraryScoring

  datatype Ref = Ref(book: nat, entry: nat)

  predicate Valid(books: seq<Book>, r: Ref) {
    r.book < |books| && r.entry < |books[r.book].entries|
  }

  predicate SlotOrder(a: Ref, b: Ref) {
    a.book < b.book || (a.book == b.book && a.entry <= b.entry)
  }

  function TermsAt(lex: Lexer, books: seq<Book>, r: Ref): set<string>
    requires Valid(books, r)
  {
    IndexTerms(lex, books[r.book], books[r.book].entries[r.entry])
  }

  function ScoreAt(lex: Lexer, terms: set<string>, books: seq<Book>, r: Ref): Option<Row>
    requires Valid(books, r)
  {
    Score(lex, terms, books[r.book], books[r.book].entries[r.entry])
  }

  // ----- the reference definition: score everything -----

  /** The references of the first `e` entries of one book, and of the first `b` books, in slot order. */
  function BookRefs(books: seq<Book>, b: nat, e: nat): (r: seq<Ref>)
    requires b < |books| && e <= |books[b].entries|
    ensures forall x :: x in r <==> x.book == b && x.entry < e
  {
    if e == 0 then [] else BookRefs(books, b, e - 1) + [Ref(b, e - 1)]
  }

  function Refs(books: seq<Book>, b: nat): (r: seq<Ref>)
    requires b <= |books|
    ensures forall x :: x in r <==> x.book < b && Valid(books, x)
  {
    if b == 0 then [] else Refs(books, b - 1) + BookRefs(books, b - 1, |books[b - 1].entries|)
  }

  function AllRefs(books: seq<Book>): (r: seq<Ref>)
    ensures forall x :: x in r <==> Valid(books, x)
  {
    Refs(books, |books|)
  }

  ghost predicate InBooks(books: seq<Book>, refs: seq<Ref>) {
    forall r :: r in refs ==> Valid(books, r)
  }

  function Scored(lex: Lexer, terms: set<string>, books: seq<Book>, refs: seq<Ref>): seq<Row>
    requires InBooks(books, refs)
  {
    if refs == [] then []
    else
      var front, last := refs[..|refs| - 1], ScoreAt(lex, terms, books, refs[|refs| - 1]);
      Scored(lex, terms, books, front) + (if last.Some? then [last.value] else [])
  }

  /** What searching without an index returns. */
  function FullScan(lex: Lexer, terms: set<string>, books: seq<Book>, limit: nat): seq<Row> {
    FirstOf(Sort(Scored(lex, terms, books, AllRefs(books)), Before), limit)
  }

  // ----- the index -----

  datatype Index = Index(books: seq<Book>, postings: map<string, seq<Ref>>)

  /** The references among `refs` whose entry holds a term, in their order. */
  function Posted(lex: Lexer, books: seq<Book>, refs: seq<Ref>, t: string): seq<Ref>
    requires InBooks(books, refs)
  {
    if refs == [] then []
    else
      var last := refs[|refs| - 1];
      Posted(lex, books, refs[..|refs| - 1], t) + (if t in TermsAt(lex, books, last) then [last] else [])
  }

  lemma {:induction false} PostedMembers(lex: Lexer, books: seq<Book>, refs: seq<Ref>, t: string, r: Ref)
    requires InBooks(books, refs)
    ensures r in Posted(lex, books, refs, t) <==> r in refs && t in TermsAt(lex, books, r)
  {
    hide TermsAt;
    if refs != [] {
      var front, last := refs[..|refs| - 1], refs[|refs| - 1];
      assert refs == front + [last];
      PostedMembers(lex, books, front, t, r);
    }
  }

  function At(postings: map<string, seq<Ref>>, t: string): seq<Ref> {
    if t in postings then postings[t] else []
  }

  /** The postings agree with a scan of the entries in `refs`, for every term. */
  ghost predicate Agrees(lex: Lexer, books: seq<Book>, refs: seq<Ref>, postings: map<string, seq<Ref>>) {
    InBooks(books, refs) && forall t :: At(postings, t) == Posted(lex, books, refs, t)
  }

  ghost predicate Indexes(lex: Lexer, index: Index) {
    Agrees(lex, index.books, AllRefs(index.books), index.postings)
  }

  method Build(lex: Lexer, books: seq<Book>) returns (index: Index)
    ensures index.books == books && Indexes(lex, index)
  {
    hide TermsAt, Posted, At;
    var mutable: map<string, seq<Ref>> := map[];
    EmptyAgrees(lex, books);
    for b := 0 to |books|
      invariant Agrees(lex, books, Refs(books, b), mutable)
    {
      assert Refs(books, b) + BookRefs(books, b, 0) == Refs(books, b);
      for e := 0 to |books[b].entries|
        invariant Agrees(lex, books, Refs(books, b) + BookRefs(books, b, e), mutable)
      {
        ghost var done := Refs(books, b) + BookRefs(books, b, e);
        ghost var before := mutable;
        mutable := AddEntry(TermsAt(lex, books, Ref(b, e)), mutable, Ref(b, e));
        EntryAgrees(lex, books, done, before, mutable, Ref(b, e));
        assert done + [Ref(b, e)] == Refs(books, b) + BookRefs(books, b, e + 1);
      }
    }
    index := Index(books, mutable);
  }

  lemma EmptyAgrees(lex: Lexer, books: seq<Book>)
    ensures Agrees(lex, books, [], map[])
  {
  }

  ghost predicate Extends(before: map<string, seq<Ref>>, after: map<string, seq<Ref>>, terms: set<string>, r: Ref) {
    forall t :: At(after, t) == if t in terms then At(before, t) + [r] else At(before, t)
  }

  lemma EntryAgrees(
    lex: Lexer, books: seq<Book>, done: seq<Ref>, before: map<string, seq<Ref>>, after: map<string, seq<Ref>>, r: Ref)
    requires Agrees(lex, books, done, before) && Valid(books, r)
    requires Extends(before, after, TermsAt(lex, books, r), r)
    ensures Agrees(lex, books, done + [r], after)
  {
    hide TermsAt, At;
    forall t
      ensures At(after, t) == Posted(lex, books, done + [r], t)
    {
      assert (done + [r])[..|done|] == done;
    }
  }

  /** `for term in _index_terms(...): mutable.setdefault(term, []).append(ref)` */
  method AddEntry(terms: set<string>, before: map<string, seq<Ref>>, r: Ref) returns (postings: map<string, seq<Ref>>)
    ensures Extends(before, postings, terms, r)
  {
    postings := before;
    var todo := terms;
    while todo != {}
      invariant todo <= terms
      invariant Extends(before, postings, terms - todo, r)
      decreases |todo|
    {
      var t :| t in todo;
      postings := postings[t := At(postings, t) + [r]];
      todo := todo - {t};
    }
  }

  predicate Hit(lex: Lexer, terms: set<string>, books: seq<Book>, r: Ref)
    requires Valid(books, r)
  {
    terms * TermsAt(lex, books, r) != {}
  }

  /** The references of entries that share a term with the query, in the order of `refs`. */
  function Hits(lex: Lexer, terms: set<string>, books: seq<Book>, refs: seq<Ref>): (r: seq<Ref>)
    requires InBooks(books, refs)
    ensures forall x :: x in r <==> x in refs && Hit(lex, terms, books, x)
  {
    if refs == [] then []
    else
      var front, last := refs[..|refs| - 1], refs[|refs| - 1];
      assert refs == front + [last];
      Hits(lex, terms, books, front) + (if Hit(lex, terms, books, last) then [last] else [])
  }

  /** The union of the posting lists of some terms. */
  method Collected(index: Index, terms: set<string>) returns (found: set<Ref>)
    ensures forall r :: r in found <==> exists t :: t in terms && r in At(index.postings, t)
  {
    found := {};
    var todo := terms;
    while todo != {}
      invariant todo <= terms
      invariant forall r :: r in found <==> exists t :: t in terms - todo && r in At(index.postings, t)
      decreases |todo|
    {
      var t :| t in todo;
      var refs := At(index.postings, t);
      ghost var known := terms - todo;
      found := found + (set r | r in refs);
      todo := todo - {t};
      assert terms - todo == known + {t};
    }
    assert terms - todo == terms;
  }

  /** Strictly ascending slots: in order and without repetition. */
  ghost predicate Ascending(refs: seq<Ref>) {
    forall i, j :: 0 <= i < j < |refs| ==> SlotOrder(refs[i], refs[j]) && refs[i] != refs[j]
  }

  lemma {:induction false} BookRefsAscending(books: seq<Book>, b: nat, e: nat)
    requires b < |books| && e <= |books[b].entries|
    ensures Ascending(BookRefs(books, b, e))
  {
    if e > 0 {
      BookRefsAscending(books, b, e - 1);
      assert forall x :: x in BookRefs(books, b, e - 1) ==> x.entry < e - 1;
    }
  }

  lemma {:induction false} RefsAscending(books: seq<Book>, b: nat)
    requires b <= |books|
    ensures Ascending(Refs(books, b))
  {
    if b > 0 {
      RefsAscending(books, b - 1);
      BookRefsAscending(books, b - 1, |books[b - 1].entries|);
      var front, own := Refs(books, b - 1), BookRefs(books, b - 1, |books[b - 1].entries|);
      forall i, j | 0 <= i < |front| && 0 <= j < |own|
        ensures SlotOrder(front[i], own[j]) && front[i] != own[j]
      {
        assert front[i] in front && own[j] in own;
      }
    }
  }

  lemma {:induction false} HitsAscending(lex: Lexer, terms: set<string>, books: seq<Book>, refs: seq<Ref>)
    requires InBooks(books, refs) && Ascending(refs)
    ensures Ascending(Hits(lex, terms, books, refs))
  {
    hide Hit;
    if refs != [] {
      var front, last := refs[..|refs| - 1], refs[|refs| - 1];
      HitsAscending(lex, terms, books, front);
      forall x | x in Hits(lex, terms, books, front)
        ensures SlotOrder(x, last) && x != last
      {
        var i :| 0 <= i < |front| && front[i] == x;
        assert refs[i] == x;
      }
    }
  }

  /** `candidate_refs`: every entry that shares a term with the query, in slot order. */
  method CandidateRefs(lex: Lexer, index: Index, terms: set<string>) returns (refs: seq<Ref>)
    requires Indexes(lex, index)
    ensures refs == Hits(lex, terms, index.books, AllRefs(index.books))
  {
    hide TermsAt, At, Posted, Indexes, Hits, AllRefs;
    var found := Collected(index, terms);
    var listed := Listed(found);
    refs := Sort(listed, SlotOrder);
    CollectedAreHits(lex, index, terms, found);
    SortedHits(lex, terms, index.books, found, listed);
  }

  lemma AscendingBag(refs: seq<Ref>)
    requires Ascending(refs)
    ensures Sorted(refs, SlotOrder) && multiset(refs) == multiset(set r | r in refs)
  {
    NoRepeatsBag(refs);
  }

  lemma SlotsAreOrdered(refs: seq<Ref>)
    ensures TotalOn(refs, SlotOrder) && AntisymmetricOn(refs, SlotOrder)
  {
  }

  /** An ascending sequence is its elements in slot order. */
  lemma SortAscends(listed: seq<Ref>, refs: seq<Ref>)
    requires Ascending(refs) && multiset(listed) == multiset(set r | r in refs)
    ensures Sort(listed, SlotOrder) == refs
  {
    hide Ascending, SlotOrder, TotalOn, AntisymmetricOn, Sorted, Sort;
    AscendingBag(refs);
    SlotsAreOrdered(listed);
    SlotsAreOrdered(Sort(listed, SlotOrder));
    SortSorted(listed, SlotOrder);
    SortedUnique(Sort(listed, SlotOrder), refs, SlotOrder);
  }

  /** The collected entries in slot order are the hits in slot order. */
  lemma SortedHits(lex: Lexer, terms: set<string>, books: seq<Book>, found: set<Ref>, listed: seq<Ref>)
    requires forall r :: r in found <==> r in Hits(lex, terms, books, AllRefs(books))
    requires multiset(listed) == multiset(found)
    ensures Sort(listed, SlotOrder) == Hits(lex, terms, books, AllRefs(books))
  {
    hide Hits, Ascending, Sort;
    var hits := Hits(lex, terms, books, AllRefs(books));
    RefsAscending(books, |books|);
    HitsAscending(lex, terms, books, AllRefs(books));
    assert (set r | r in hits) == found;
    SortAscends(listed, hits);
  }

  lemma CollectedAreHits(lex: Lexer, index: Index, terms: set<string>, found: set<Ref>)
    requires Indexes(lex, index)
    requires forall r :: r in found <==> exists t :: t in terms && r in At(index.postings, t)
    ensures forall r :: r in found <==> r in Hits(lex, terms, index.books, AllRefs(index.books))
  {
    hide TermsAt, At, Posted, Indexes, Agrees;
    var all := AllRefs(index.books);
    forall r
      ensures r in found <==> r in Hits(lex, terms, index.books, all)
    {
      forall t
        ensures r in At(index.postings, t) <==> r in all && t in TermsAt(lex, index.books, r)
      {
        PostingsSay(lex, index, t, r);
      }
      if r in all && Hit(lex, terms, index.books, r) {
        var t :| t in terms * TermsAt(lex, index.books, r);
        assert t in terms && r in At(index.postings, t);
      }
      if r in found {
        var t :| t in terms && r in At(index.postings, t);
        assert t in terms * TermsAt(lex, index.books, r);
      }
    }
  }

  lemma PostingsSay(lex: Lexer, index: Index, t: string, r: Ref)
    requires Indexes(lex, index)
    ensures r in At(index.postings, t) <==> r in AllRefs(index.books) && t in TermsAt(lex, index.books, r)
  {
    PostedMembers(lex, index.books, AllRefs(index.books), t, r);
  }

  /** Entries that share no term with the query never score, so leaving them out changes nothing. */
  lemma {:induction false} ScoredHits(lex: Lexer, terms: set<string>, books: seq<Book>, refs: seq<Ref>)
    requires lex("") == {} && InBooks(books, refs)
    ensures Scored(lex, terms, books, Hits(lex, terms, books, refs)) == Scored(lex, terms, books, refs)
  {
    hide ScoreAt, TermsAt, Hit;
    if refs != [] {
      var front, last := refs[..|refs| - 1], refs[|refs| - 1];
      ScoredHits(lex, terms, books, front);
      ScoreNeedsHit(lex, terms, books, last);
      var kept := Hits(lex, terms, books, front);
      if Hit(lex, terms, books, last) {
        assert Hits(lex, terms, books, refs) == kept + [last];
        assert (kept + [last])[..|kept|] == kept;
      } else {
        assert Hits(lex, terms, books, refs) == kept;
      }
    }
  }

  lemma ScoreNeedsHit(lex: Lexer, terms: set<string>, books: seq<Book>, r: Ref)
    requires lex("") == {} && Valid(books, r)
    ensures ScoreAt(lex, terms, books, r).Some? ==> Hit(lex, terms, books, r)
  {
    hide Score, IndexTerms;
    if ScoreAt(lex, terms, books, r).Some? {
      ScoredIsIndexed(lex, terms, books[r.book], books[r.book].entries[r.entry]);
    }
  }

  // ----- the port and the retriever -----

  predicate DistinctEntries(b: Book) {
    forall i, j :: 0 <= i < j < |b.entries| ==> b.entries[i].entryId != b.entries[j].entryId
  }

  /** Book ids are unique, and entry ids are unique in each book. */
  predicate UniqueIds(books: seq<Book>) {
    && (forall i, j :: 0 <= i < j < |books| ==> books[i].bookId != books[j].bookId)
    && (forall b :: b in books ==> DistinctEntries(b))
  }

  /** `InMemoryLibraryPort` (library/in_memory.py); a book rejects repeated entry ids when it is built. */
  class LibraryPort {
    var books: map<string, Book>

    ghost predicate Valid()
      reads this
    {
      forall k :: k in books ==> books[k].bookId == k && DistinctEntries(books[k])
    }

    constructor ()
      ensures Valid() && books == map[]
    {
      books := map[];
    }

    method PutBook(b: Book)
      requires Valid() && DistinctEntries(b)
      modifies this
      ensures Valid() && books == old(books)[b.bookId := b]
    {
      books := books[b.bookId := b];
    }

    method RemoveBook(id: string) returns (removed: bool)
      requires Valid()
      modifies this
      ensures Valid() && books == old(books) - {id} && removed == (id in old(books))
    {
      removed := id in books;
      books := books - {id};
    }

    /** All books in the order of their ids. */
    method ListBooks() returns (r: seq<Book>)
      requires Valid()
      ensures Lists(books, r)
      ensures forall i, j :: 0 <= i < j < |r| ==> AtMost(r[i].bookId, r[j].bookId)
    {
      var ids := SortedIds(books.Keys);
      r := [];
      for i := 0 to |ids|
        invariant |r| == i && forall k :: 0 <= k < i ==> r[k] == books[ids[k]]
      {
        assert ids[i] in ids;
        r := r + [books[ids[i]]];
      }
      ListsIds(books, ids, r);
    }
  }

  /** A listing of the stored books: each once, and nothing else. */
  ghost predicate Lists(books: map<string, Book>, r: seq<Book>) {
    && UniqueIds(r)
    && (forall b :: b in r <==> b.bookId in books && books[b.bookId] == b)
  }

  /** `sorted(keys)` */
  ghost function IdsInOrder(keys: set<string>): (ids: seq<string>)
    ensures NoRepeats(ids) && Sorted(ids, AtMost) && forall x :: x in ids <==> x in keys
  {
    var listed := Enumerated(keys);
    AtMostOrders(listed);
    SortSorted(listed, AtMost);
    SetHasNoRepeats(Sort(listed, AtMost), keys);
    Sort(listed, AtMost)
  }

  method SortedIds(keys: set<string>) returns (ids: seq<string>)
    ensures NoRepeats(ids) && Sorted(ids, AtMost) && forall x :: x in ids <==> x in keys
  {
    hide AtMost, Sort;
    var listed := Listed(keys);
    ids := Sort(listed, AtMost);
    AtMostOrders(listed);
    SortSorted(listed, AtMost);
    SetHasNoRepeats(ids, keys);
  }

  lemma ListsIds(books: map<string, Book>, ids: seq<string>, r: seq<Book>)
    requires forall k :: k in books ==> books[k].bookId == k && DistinctEntries(books[k])
    requires NoRepeats(ids) && forall x :: x in ids <==> x in books.Keys
    requires |r| == |ids| && forall k :: 0 <= k < |r| ==> ids[k] in books && r[k] == books[ids[k]]
    ensures Lists(books, r)
  {
    hide DistinctEntries;
    forall b
      ensures b in r <==> b.bookId in books && books[b.bookId] == b
    {
      if b.bookId in books && books[b.bookId] == b {
        var i :| 0 <= i < |ids| && ids[i] == b.bookId;
        assert r[i] == b;
      }
    }
  }

  lemma AtMostOrders(s: seq<string>)
    ensures TotalOn(s, AtMost)
  {
    forall x, y
      ensures AtMost(x, y) || AtMost(y, x)
    {
      AtMostTotal(x, y);
    }
    forall x, y, z | AtMost(x, y) && AtMost(y, z)
      ensures AtMost(x, z)
    {
      AtMostTransitive(x, y, z);
    }
  }

  method Ranked(lex: Lexer, index: Index, terms: set<string>, refs: seq<Ref>) returns (ranked: seq<Row>)
    requires lex("") == {} && refs == Hits(lex, terms, index.books, AllRefs(index.books))
    ensures ranked == Scored(lex, terms, index.books, AllRefs(index.books))
  {
    hide ScoreAt, TermsAt, Hit;
    ranked := [];
    for i := 0 to |refs|
      invariant ranked == Scored(lex, terms, index.books, refs[..i])
    {
      assert refs[..i + 1][..i] == refs[..i];
      var row := ScoreAt(lex, terms, index.books, refs[i]);
      if row.Some? {
        ranked := ranked + [row.value];
      }
    }
    assert refs[..|refs|] == refs;
    ScoredHits(lex, terms, index.books, AllRefs(index.books));
  }

  datatype SearchError = QueryRequired | LimitNotPositive

  class LexicalLibraryRetriever {
    const lex: Lexer
    const port: LibraryPort
    var index: Index

    ghost predicate Valid()
      reads this
    {
      lex("") == {} && Indexes(lex, index)
    }

    constructor (lex: Lexer, port: LibraryPort)
      requires lex("") == {} && port.Valid()
      ensures Valid() && this.port == port && this.lex == lex
      ensures Lists(port.books, index.books)
    {
      this.lex, this.port := lex, port;
      var books := port.ListBooks();
      var built := Build(lex, books);
      index := built;
    }

    method Rebuild()
      requires Valid() && port.Valid()
      modifies this
      ensures Valid()
      ensures Lists(port.books, index.books)
    {
      var books := port.ListBooks();
      index := Build(lex, books);
    }

    /** Searching the index answers what scoring every entry of the indexed books would. */
    method Search(query: string, limit: int) returns (r: Result<seq<Row>, SearchError>)
      requires Valid()
      ensures r == if Blank(query) then Err(QueryRequired)
                   else if limit <= 0 then Err(LimitNotPositive)
                   else Ok(FullScan(lex, lex(Strip(query)), index.books, limit))
    {
      if Blank(query) {
        return Err(QueryRequired);
      }
      if limit <= 0 {
        return Err(LimitNotPositive);
      }
      hide Score, ScoreAt, TermsAt, Hits, Scored, AllRefs, Refs, At, Sort, Before, Posted, Indexes;
      var terms := lex(Strip(query));
      var refs := CandidateRefs(lex, index, terms);
      var ranked := Ranked(lex, index, terms, refs);
      return Ok(FirstOf(Sort(ranked, Before), limit));
    }
  }
}

/** The ranking is a total order on what is found, so a search depends on the stored books alone. */
module LibraryRanking {
  import opened Outcomes
  import opened Sorting
  import opened Listing
  import opened Text
  import opened LibraryScoring
  import opened LibraryIndex

  lemma ScoreKeepsIds(lex: Lexer, terms: set<string>, books: seq<Book>, r: Ref)
    requires Valid(books, r) && ScoreAt(lex, terms, books, r).Some?
    ensures var row := ScoreAt(lex, terms, books, r).value;
            row.book == books[r.book] && row.entry == books[r.book].entries[r.entry]
  {
  }

  lemma {:induction false} ScoredFrom(lex: Lexer, terms: set<string>, books: seq<Book>, refs: seq<Ref>, row: Row)
    requires InBooks(books, refs)
    ensures row in Scored(lex, terms, books, refs) <==>
              exists r :: r in refs && ScoreAt(lex, terms, books, r) == Some(row)
  {
    hide ScoreAt;
    if refs != [] {
      var front, last := refs[..|refs| - 1], refs[|refs| - 1];
      assert refs == front + [last];
      ScoredFrom(lex, terms, books, front, row);
    }
  }

  /** A row is what scoring its own book and entry gives. */
  ghost predicate Found(lex: Lexer, terms: set<string>, books: seq<Book>, row: Row) {
    row.book in books && row.entry in row.book.entries && Score(lex, terms, row.book, row.entry) == Some(row)
  }

  lemma ScoredExactly(lex: Lexer, terms: set<string>, books: seq<Book>, row: Row)
    ensures row in Scored(lex, terms, books, AllRefs(books)) <==> Found(lex, terms, books, row)
  {
    hide Score, AllRefs;
    var all := AllRefs(books);
    ScoredFrom(lex, terms, books, all, row);
    if Found(lex, terms, books, row) {
      var b :| 0 <= b < |books| && books[b] == row.book;
      var e :| 0 <= e < |books[b].entries| && books[b].entries[e] == row.entry;
      assert Ref(b, e) in all && ScoreAt(lex, terms, books, Ref(b, e)) == Some(row);
    }
    if r :| r in all && ScoreAt(lex, terms, books, r) == Some(row) {
      ScoreKeepsIds(lex, terms, books, r);
    }
  }

  /** Two rows with the same ids are the same row, so the ranking key never ties. */
  lemma KeyIsTotal(lex: Lexer, terms: set<string>, books: seq<Book>, a: Row, b: Row)
    requires UniqueIds(books) && Found(lex, terms, books, a) && Found(lex, terms, books, b)
    requires Before(a, b) && Before(b, a)
    ensures a == b
  {
    hide Score, Before;
    SameKeySameIds(a, b);
    var i :| 0 <= i < |books| && books[i] == a.book;
    var j :| 0 <= j < |books| && books[j] == b.book;
    assert i == j;
    assert DistinctEntries(a.book);
    var x :| 0 <= x < |a.book.entries| && a.book.entries[x] == a.entry;
    var y :| 0 <= y < |a.book.entries| && a.book.entries[y] == b.entry;
    assert x == y;
  }

  lemma {:induction false} ScoredNoRepeats(lex: Lexer, terms: set<string>, books: seq<Book>, refs: seq<Ref>)
    requires UniqueIds(books) && InBooks(books, refs) && NoRepeats(refs)
    ensures NoRepeats(Scored(lex, terms, books, refs))
  {
    hide ScoreAt;
    if refs != [] {
      var front, last := refs[..|refs| - 1], refs[|refs| - 1];
      assert refs == front + [last];
      ScoredNoRepeats(lex, terms, books, front);
      var row := ScoreAt(lex, terms, books, last);
      if row.Some? && row.value in Scored(lex, terms, books, front) {
        ScoredFrom(lex, terms, books, front, row.value);
        var r :| r in front && ScoreAt(lex, terms, books, r) == row;
        ScoreKeepsIds(lex, terms, books, r);
        ScoreKeepsIds(lex, terms, books, last);
        SameSlot(books, r, last);
      }
    }
  }

  lemma SameSlot(books: seq<Book>, a: Ref, b: Ref)
    requires UniqueIds(books) && Valid(books, a) && Valid(books, b)
    requires books[a.book] == books[b.book] && books[a.book].entries[a.entry] == books[b.book].entries[b.entry]
    ensures a == b
  {
    assert DistinctEntries(books[a.book]);
  }

  lemma RowsOrdered(rows: seq<Row>)
    ensures TotalOn(rows, Before)
  {
    hide Before;
    forall x, y
      ensures Before(x, y) || Before(y, x)
    {
      BeforeTotal(x, y);
    }
    forall x, y, z | Before(x, y) && Before(y, z)
      ensures Before(x, z)
    {
      BeforeTransitive(x, y, z);
    }
  }

  /** Any listing of the stored books gives the same result list. */
  lemma SearchIgnoresBookOrder(
    lex: Lexer, terms: set<string>, stored: map<string, Book>, a: seq<Book>, b: seq<Book>, limit: nat)
    requires Lists(stored, a) && Lists(stored, b)
    ensures FullScan(lex, terms, a, limit) == FullScan(lex, terms, b, limit)
  {
    hide Score, Before, Scored, AllRefs, Refs, Sort;
    var x, y := Scored(lex, terms, a, AllRefs(a)), Scored(lex, terms, b, AllRefs(b));
    forall row
      ensures row in x <==> row in y
    {
      ScoredExactly(lex, terms, a, row);
      ScoredExactly(lex, terms, b, row);
    }
    assert (set row | row in x) == (set row | row in y);
    DistinctRows(lex, terms, a);
    DistinctRows(lex, terms, b);
    NoRepeatsBag(x);
    NoRepeatsBag(y);
    RowsOrdered(x);
    RowsOrdered(y);
    SortSorted(x, Before);
    SortSorted(y, Before);
    Untied(lex, terms, a);
    SortedUnique(Sort(x, Before), Sort(y, Before), Before);
  }

  lemma DistinctRows(lex: Lexer, terms: set<string>, books: seq<Book>)
    requires UniqueIds(books)
    ensures NoRepeats(Scored(lex, terms, books, AllRefs(books)))
  {
    RefsAscending(books, |books|);
    ScoredNoRepeats(lex, terms, books, AllRefs(books));
  }

  lemma Untied(lex: Lexer, terms: set<string>, books: seq<Book>)
    requires UniqueIds(books)
    ensures AntisymmetricOn(Sort(Scored(lex, terms, books, AllRefs(books)), Before), Before)
  {
    hide Before, Scored, AllRefs, Sort, Score;
    var rows := Scored(lex, terms, books, AllRefs(books));
    forall a, b | a in Sort(rows, Before) && b in Sort(rows, Before) && Before(a, b) && Before(b, a)
      ensures a == b
    {
      SameElement(Sort(rows, Before), rows, a);
      SameElement(Sort(rows, Before), rows, b);
      ScoredExactly(lex, terms, books, a);
      ScoredExactly(lex, terms, books, b);
      KeyIsTotal(lex, terms, books, a, b);
    }
  }

  /** The result list is ranked, and holds the best `limit` of the entries that score. */
  lemma SearchReturnsBest(lex: Lexer, terms: set<string>, books: seq<Book>, limit: nat)
    ensures var r := FullScan(lex, terms, books, limit); Sorted(r, Before) && |r| <= limit
    ensures forall row :: row in FullScan(lex, terms, books, limit) ==> Found(lex, terms, books, row)
    ensures forall row ::
              Found(lex, terms, books, row) && row !in FullScan(lex, terms, books, limit) ==>
              |FullScan(lex, terms, books, limit)| == limit &&
              forall kept :: kept in FullScan(lex, terms, books, limit) ==> Before(kept, row)
  {
    hide Score, Before, Scored, AllRefs, Sort, Found;
    var rows := Scored(lex, terms, books, AllRefs(books));
    var all := Sort(rows, Before);
    RowsOrdered(rows);
    SortSorted(rows, Before);
    forall row
      ensures row in all <==> Found(lex, terms, books, row)
    {
      SameElement(all, rows, row);
      ScoredExactly(lex, terms, books, row);
    }
    var r := FullScan(lex, terms, books, limit);
    forall row, kept | row in all && row !in r && kept in r
      ensures Before(kept, row)
    {
      var i :| 0 <= i < |r| && r[i] == kept;
      var j :| 0 <= j < |all| && all[j] == row;
      assert all[i] == kept;
      assert forall q :: 0 <= q < |r| ==> r[q] == all[q];
    }
  }
}
