/** Memory records as archive objects, and back (memory/transfer.py). Digests are taken as injective. */
module MemoryArchive {
  import opened Outcomes
  import opened Text
  import opened MemorySpec
  import opened MemoryPorts

  /** A record object; `None` is a missing key, and for the nullable fields also a null. */
  datatype Raw = Raw(
    id: Option<string>, kind: Option<string>, content: Option<string>, source: Option<string>, confidence: Option<real>,
    metadata: Option<map<string, string>>, sourceId: Option<string>, sourceType: Option<string>,
    evidence: Option<seq<string>>, trust: Option<string>, importance: Option<real>, writer: Option<string>,
    validation: Option<string>, createdAt: Option<int>, updatedAt: Option<int>, validFrom: Option<int>,
    validUntil: Option<int>, supersedes: Option<string>, supersededBy: Option<string>, lastUsedAt: Option<int>,
    successes: Option<int>, failures: Option<int>, schema: Option<int>, invalidated: Option<bool>)

  datatype ArchiveError =
    | MissingField | InvalidRecord | UnsupportedSchema | CountMismatch | DigestInvalid | ChecksumMismatch | DuplicateId
    | Conflict

  /** What constructing a record demands. */
  predicate WellFormed(r: Record) {
    && 0.0 <= r.confidence <= 1.0 && 0.0 <= r.importance <= 1.0
    && !Blank(r.id) && !Blank(r.kind) && !Blank(r.content) && r.schema > 0
    && (r.validUntil.Some? ==> r.validFrom <= r.validUntil.value)
  }

  function ToRaw(r: Record): Raw {
    Raw(Some(r.id), Some(r.kind), Some(r.content), Some(r.source), Some(r.confidence), Some(r.metadata), r.sourceId,
        Some(r.sourceType), Some(r.evidence), Some(r.trust), Some(r.importance), Some(r.writer), Some(r.validation),
        Some(r.createdAt), Some(r.updatedAt), Some(r.validFrom), r.validUntil, r.supersedes, r.supersededBy,
        r.lastUsedAt, Some(r.successes), Some(r.failures), Some(r.schema), Some(r.invalidated))
  }

  function Or<T>(x: Option<T>, default: T): T {
    if x.Some? then x.value else default
  }

  /** `record_from_dict`: four required keys, defaults for the others, then the record's own checks. */
  function FromRaw(raw: Raw): Result<Record, ArchiveError> {
    if raw.id.None? || raw.kind.None? || raw.content.None? || raw.source.None? then Err(MissingField)
    else if Or(raw.successes, 0) < 0 || Or(raw.failures, 0) < 0 then Err(InvalidRecord)
    else
      var r := Record(
        raw.id.value, raw.kind.value, raw.content.value, raw.source.value, Or(raw.confidence, 1.0),
        Or(raw.metadata, map[]), raw.sourceId, Or(raw.sourceType, "engine"), Or(raw.evidence, []),
        Or(raw.trust, "unknown"), Or(raw.importance, 0.5), Or(raw.writer, "unknown"), Or(raw.validation, "committed"),
        Or(raw.createdAt, 0), Or(raw.updatedAt, 0), Or(raw.validFrom, Or(raw.createdAt, 0)), raw.validUntil,
        raw.supersedes, raw.supersededBy, raw.lastUsedAt, Or(raw.successes, 0), Or(raw.failures, 0),
        Or(raw.schema, MEMORY_SCHEMA), Or(raw.invalidated, false));
      if WellFormed(r) then Ok(r) else Err(InvalidRecord)
  }

  /** A record survives the archive exactly when it is well formed. */
  lemma RecordRoundTrip(r: Record)
    ensures FromRaw(ToRaw(r)) == Ok(r) <==> WellFormed(r)
  {
  }

  function ToRaws(records: seq<Record>): (r: seq<Raw>)
    ensures |r| == |records| && forall i :: 0 <= i < |r| ==> r[i] == ToRaw(records[i])
  {
    if records == [] then [] else [ToRaw(records[0])] + ToRaws(records[1..])
  }

  const ARCHIVE_SCHEMA := 1
  const MEMORY_SCHEMA := 3

  /** The digest stands for the record objects it was taken of; `None` is not a digest. */
  datatype Archive = Archive(schema: int, memorySchema: int, count: int, digest: Option<seq<Raw>>, records: seq<Raw>)

  function BuildArchive(records: seq<Record>): Archive {
    Archive(ARCHIVE_SCHEMA, MEMORY_SCHEMA, |records|, Some(ToRaws(records)), ToRaws(records))
  }

  function Parsed(raws: seq<Raw>): Result<seq<Record>, ArchiveError> {
    if raws == [] then Ok([])
    else
      match Parsed(raws[..|raws| - 1])
      case Err(e) => Err(e)
      case Ok(front) =>
        match FromRaw(raws[|raws| - 1])
        case Err(e) => Err(e)
        case Ok(r) => if exists i :: 0 <= i < |front| && front[i].id == r.id then Err(DuplicateId) else Ok(front + [r])
  }

  /** `validate_memory_archive` and the records it has parsed. */
  function Validated(a: Archive): Result<seq<Record>, ArchiveError> {
    if a.schema != ARCHIVE_SCHEMA then Err(UnsupportedSchema)
    else if a.count != |a.records| then Err(CountMismatch)
    else if a.digest.None? then Err(DigestInvalid)
    else if a.digest.value != a.records then Err(ChecksumMismatch)
    else Parsed(a.records)
  }

  lemma {:induction false} ParsedBuilt(records: seq<Record>)
    ensures Parsed(ToRaws(records)) == Ok(records) <==> UniqueIds(records) && forall r :: r in records ==> WellFormed(r)
    ensures Parsed(ToRaws(records)).Ok? ==> Parsed(ToRaws(records)) == Ok(records)
  {
    hide WellFormed, ToRaw, FromRaw;
    if records != [] {
      var front, last := records[..|records| - 1], records[|records| - 1];
      assert records == front + [last];
      assert ToRaws(records)[..|front|] == ToRaws(front);
      ParsedBuilt(front);
      RecordRoundTrip(last);
      RawKeeps(last);
      if Parsed(ToRaws(front)).Ok? && WellFormed(last) {
        assert UniqueIds(records) <==> !(exists i :: 0 <= i < |front| && front[i].id == last.id);
      }
    }
  }

  lemma RawKeeps(r: Record)
    ensures FromRaw(ToRaw(r)).Ok? ==> FromRaw(ToRaw(r)) == Ok(r)
  {
  }

  lemma {:induction false} ParsedUnique(raws: seq<Raw>)
    requires Parsed(raws).Ok?
    ensures UniqueIds(Parsed(raws).value)
  {
    hide FromRaw;
    if raws != [] {
      ParsedUnique(raws[..|raws| - 1]);
    }
  }

  /**
   * An archive built from a store validates to that store exactly when its records are well formed
   * with distinct ids.
   */
  lemma ArchiveRoundTrip(records: seq<Record>)
    ensures Validated(BuildArchive(records)) == Ok(records) <==>
              UniqueIds(records) && forall r :: r in records ==> WellFormed(r)
    ensures Validated(BuildArchive(records)).Ok? ==> Validated(BuildArchive(records)) == Ok(records)
  {
    ParsedBuilt(records);
  }

  /** `restore_memory_archive` without overwriting: all records are imported, or none. */
  method RestoreMemoryArchive(port: InMemoryMemoryPort, archive: Archive, at: int)
    returns (r: Result<nat, ArchiveError>)
    modifies port
    ensures Validated(archive).Err? ==> r == Err(Validated(archive).error)
    ensures Validated(archive).Ok? ==>
              (r == Err(Conflict) <==>
               exists x, y :: x in Validated(archive).value && y in old(port.records) && x.id == y.id)
    ensures r.Ok? ==>
              Validated(archive).Ok? && r.value == |Validated(archive).value| &&
              port.records == old(port.records) + Validated(archive).value
    ensures r.Err? ==> port.records == old(port.records) && (Validated(archive).Ok? ==> r == Err(Conflict))
  {
    hide Parsed, WellFormed;
    var parsed := Validated(archive);
    if parsed.Err? {
      return Err(parsed.error);
    }
    ParsedUnique(archive.records);
    var records := parsed.value;
    for i := 0 to |records|
      invariant port.records == old(port.records)
      invariant forall k :: 0 <= k < i ==> forall y :: y in port.records ==> records[k].id != y.id
    {
      if Locate(port.records, records[i].id).Some? {
        ghost var y := port.records[Locate(port.records, records[i].id).value];
        assert records[i] in records && y in port.records && records[i].id == y.id;
        return Err(Conflict);
      }
    }
    for i := 0 to |records|
      invariant port.records == old(port.records) + records[..i]
    {
      assert Locate(port.records, records[i].id).None? by {
        NoneLocated(old(port.records), records, i);
      }
      var imported := port.ImportRecord(records[i], false, at);
      assert records[..i + 1] == records[..i] + [records[i]];
    }
    assert records[..|records|] == records;
    return Ok(|records|);
  }

  lemma NoneLocated(before: seq<Record>, records: seq<Record>, i: nat)
    requires UniqueIds(records) && i < |records| && forall y :: y in before ==> records[i].id != y.id
    ensures Locate(before + records[..i], records[i].id).None?
  {
    var all := before + records[..i];
    assert forall k :: 0 <= k < |all| ==> all[k] in before || all[k] == records[k - |before|];
  }
}

/** Books as archive objects, and back (library/archive.py, library/models.py). */
module LibraryArchive {
  import opened Outcomes
  import opened Sorting
  import opened Listing
  import opened Text
  import opened Normalized
  import opened UsageNotes
  import opened LibraryScoring
  import opened LibraryIndex

  datatype LibraryError =
    | InvalidField | DuplicateEntry | UnsupportedSchema | CountMismatch | DigestInvalid | ChecksumMismatch
    | DuplicateBook
    | TargetNotEmpty

  function RereadNotes(notes: seq<Note>): Option<seq<Note>> {
    if notes == [] then Some([])
    else
      var rest := RereadNotes(notes[1..]);
      if !Readable(notes[0]) || rest.None? then None else Some([Reread(notes[0])] + rest.value)
  }

  /** What constructing an entry or a book demands of its trust class, validation state and schema version. */
  predicate Labelled(trust: string, validation: string, schema: int) {
    !Blank(trust) && !Blank(validation) && schema > 0
  }

  /** `KnowledgeEntry.from_dict(entry.to_dict())`: every text is stripped and blank list items are dropped. */
  function RereadEntry(e: Entry): Option<Entry> {
    var notes := RereadNotes(e.notes);
    if Blank(e.entryId) || Blank(e.title) || Blank(e.summary) || notes.None? then None
    else if !Labelled(e.trust, e.validation, e.schema) then None
    else
      Some(Entry(Strip(e.entryId), Strip(e.title), Strip(e.summary), Cleaned(e.aliases), Cleaned(e.tags),
                 Cleaned(e.useWhen), Cleaned(e.avoidWhen), Cleaned(e.structure), Cleaned(e.tradeoffs),
                 Cleaned(e.pitfalls), Strip(e.hint), e.complexity, notes.value, Cleaned(e.provenance),
                 Strip(e.trust), Strip(e.validation), e.schema))
  }

  function RereadEntries(entries: seq<Entry>): Option<seq<Entry>> {
    if entries == [] then Some([])
    else
      var first, rest := RereadEntry(entries[0]), RereadEntries(entries[1..]);
      if first.None? || rest.None? then None else Some([first.value] + rest.value)
  }

  /** `Book.from_dict(book.to_dict())` */
  function RereadBook(b: Book): Result<Book, LibraryError> {
    var entries := RereadEntries(b.entries);
    if Blank(b.bookId) || Blank(b.title) || Blank(b.version) || entries.None? then Err(InvalidField)
    else if !Labelled(b.trust, b.validation, b.schema) then Err(InvalidField)
    else
      var book := Book(Strip(b.bookId), Strip(b.title), Strip(b.version), Strip(b.description), entries.value,
                       Cleaned(b.provenance), Strip(b.trust), Strip(b.validation), b.schema);
      if DistinctEntries(book) then Ok(book) else Err(DuplicateEntry)
  }

  /** A book that reading back leaves as it is. */
  predicate CanonicalBook(b: Book) {
    RereadBook(b) == Ok(b)
  }

  const ARCHIVE_SCHEMA := 1
  const LIBRARY_SCHEMA := 1

  datatype Archive = Archive(schema: int, librarySchema: int, count: int, digest: Option<seq<Book>>, books: seq<Book>)

  ghost predicate PortSound(books: map<string, Book>) {
    forall k :: k in books ==> books[k].bookId == k && DistinctEntries(books[k])
  }

  ghost predicate Ordered(r: seq<Book>) {
    forall i, j :: 0 <= i < j < |r| ==> AtMost(r[i].bookId, r[j].bookId)
  }

  ghost function BooksOf(books: map<string, Book>, ids: seq<string>): (r: seq<Book>)
    requires forall k :: k in ids ==> k in books
    ensures |r| == |ids| && forall i :: 0 <= i < |r| ==> ids[i] in books && r[i] == books[ids[i]]
  {
    seq(|ids|, i requires 0 <= i < |ids| => assert ids[i] in ids; books[ids[i]])
  }

  lemma BooksListed(books: map<string, Book>, ids: seq<string>)
    requires PortSound(books) && NoRepeats(ids) && Sorted(ids, AtMost) && forall k :: k in ids <==> k in books.Keys
    ensures Lists(books, BooksOf(books, ids)) && Ordered(BooksOf(books, ids))
  {
    hide AtMost, DistinctEntries;
    ListsIds(books, ids, BooksOf(books, ids));
  }

  /** The books of a port as `list_books` gives them. */
  ghost function InOrder(books: map<string, Book>): (r: seq<Book>)
    requires PortSound(books)
    ensures Lists(books, r) && Ordered(r)
  {
    BooksListed(books, IdsInOrder(books.Keys));
    BooksOf(books, IdsInOrder(books.Keys))
  }

  predicate ById(a: Book, b: Book) {
    AtMost(a.bookId, b.bookId)
  }

  lemma OneOrder(books: map<string, Book>, a: seq<Book>, b: seq<Book>)
    requires Lists(books, a) && Lists(books, b) && Ordered(a) && Ordered(b)
    ensures a == b
  {
    hide DistinctEntries, AtMost;
    SameElementsSameBag(a, b);
    forall x, y | x in a && y in a && ById(x, y) && ById(y, x)
      ensures x == y
    {
      AtMostAntisymmetric(x.bookId, y.bookId);
    }
    SortedUnique(a, b, ById);
  }

  ghost function BuildArchive(books: map<string, Book>): Archive
    requires PortSound(books)
  {
    Archive(ARCHIVE_SCHEMA, LIBRARY_SCHEMA, |InOrder(books)|, Some(InOrder(books)), InOrder(books))
  }

  function Parsed(raws: seq<Book>): Result<seq<Book>, LibraryError> {
    if raws == [] then Ok([])
    else
      match Parsed(raws[..|raws| - 1])
      case Err(e) => Err(e)
      case Ok(front) =>
        match RereadBook(raws[|raws| - 1])
        case Err(e) => Err(e)
        case Ok(b) =>
          if exists i :: 0 <= i < |front| && front[i].bookId == b.bookId then Err(DuplicateBook)
          else Ok(front + [b])
  }

  /** `validate_library_archive` */
  function Validated(a: Archive): Result<seq<Book>, LibraryError> {
    if a.schema != ARCHIVE_SCHEMA || a.librarySchema != LIBRARY_SCHEMA then Err(UnsupportedSchema)
    else if a.count != |a.books| then Err(CountMismatch)
    else if a.digest.None? then Err(DigestInvalid)
    else if a.digest.value != a.books then Err(ChecksumMismatch)
    else Parsed(a.books)
  }

  /** The port after putting books one by one. */
  function PutAll(books: map<string, Book>, added: seq<Book>): map<string, Book> {
    if added == [] then books else PutAll(books, added[..|added| - 1])[added[|added| - 1].bookId := added[|added| - 1]]
  }

  predicate DistinctBooks(books: seq<Book>) {
    forall i, j :: 0 <= i < j < |books| ==> books[i].bookId != books[j].bookId
  }

  lemma {:induction false} PutAllHolds(added: seq<Book>)
    requires DistinctBooks(added)
    ensures forall i ::
              0 <= i < |added| ==>
              added[i].bookId in PutAll(map[], added) && PutAll(map[], added)[added[i].bookId] == added[i]
    ensures forall k :: k in PutAll(map[], added) ==> exists i :: 0 <= i < |added| && added[i].bookId == k
  {
    if added != [] {
      var front, last := added[..|added| - 1], added[|added| - 1];
      PutAllHolds(front);
      forall k | k in PutAll(map[], added)
        ensures exists i :: 0 <= i < |added| && added[i].bookId == k
      {
        if k == last.bookId {
          assert added[|added| - 1].bookId == k;
        } else {
          assert k in PutAll(map[], front);
          var i :| 0 <= i < |front| && front[i].bookId == k;
          assert added[i].bookId == k;
        }
      }
    }
  }

  /** Putting distinct books into an empty port stores exactly them. */
  lemma PutAllLists(added: seq<Book>)
    requires UniqueIds(added)
    ensures PortSound(PutAll(map[], added)) && Lists(PutAll(map[], added), added)
  {
    hide DistinctEntries, PutAll;
    PutAllHolds(added);
    var m := PutAll(map[], added);
    forall k | k in m
      ensures m[k].bookId == k && m[k] in added
    {
      var i :| 0 <= i < |added| && added[i].bookId == k;
      assert m[k] == added[i];
    }
  }

  /** The books of a valid archive, put one by one into an empty port. */
  lemma ValidatedStages(a: Archive)
    ensures Validated(a).Ok? ==> PortSound(PutAll(map[], Validated(a).value))
  {
    hide PortSound, PutAll, Parsed, RereadBook;
    if Validated(a).Ok? {
      ParsedUnique(a.books);
      PutAllLists(Validated(a).value);
    }
  }

  lemma {:induction false} ParsedUnique(raws: seq<Book>)
    requires Parsed(raws).Ok?
    ensures UniqueIds(Parsed(raws).value)
  {
    hide DistinctEntries, RereadBook;
    if raws != [] {
      ParsedUnique(raws[..|raws| - 1]);
      RereadDistinct(raws[|raws| - 1]);
    }
  }

  lemma RereadDistinct(b: Book)
    ensures RereadBook(b).Ok? ==> DistinctEntries(RereadBook(b).value)
  {
  }

  lemma {:induction false} ParsedPointwise(raws: seq<Book>)
    ensures Parsed(raws).Ok? ==>
              |Parsed(raws).value| == |raws| &&
              forall i :: 0 <= i < |raws| ==> RereadBook(raws[i]) == Ok(Parsed(raws).value[i])
  {
    hide RereadBook;
    if raws != [] {
      ParsedPointwise(raws[..|raws| - 1]);
    }
  }

  /** Books with distinct ids come back as they are exactly when each of them is canonical. */
  lemma {:induction false} ParsedCanonical(raws: seq<Book>)
    requires UniqueIds(raws)
    ensures Parsed(raws) == Ok(raws) <==> forall b :: b in raws ==> CanonicalBook(b)
  {
    hide RereadBook;
    if raws != [] {
      var front, last := raws[..|raws| - 1], raws[|raws| - 1];
      assert raws == front + [last];
      ParsedCanonical(front);
      ParsedPointwise(front);
      assert CanonicalBook(last) <==> RereadBook(last) == Ok(last);
      assert Parsed(raws) == Ok(raws) <==> Parsed(front) == Ok(front) && RereadBook(last) == Ok(last);
    }
  }

  /** The archive of a port passes every check on its envelope. */
  lemma BuiltReparses(books: map<string, Book>)
    requires PortSound(books)
    ensures Validated(BuildArchive(books)) == Parsed(InOrder(books))
  {
    hide Parsed, InOrder;
  }

  /**
   * What a port holds after restoring its own archive into an empty one: the same books exactly
   * when all are canonical.
   */
  lemma ArchiveRoundTrip(books: map<string, Book>)
    requires PortSound(books)
    ensures Validated(BuildArchive(books)) == Parsed(InOrder(books))
    ensures Parsed(InOrder(books)) == Ok(InOrder(books)) <==> forall k :: k in books ==> CanonicalBook(books[k])
  {
    hide CanonicalBook, BuildArchive, Validated, Parsed, InOrder;
    var r := InOrder(books);
    BuiltReparses(books);
    ParsedCanonical(r);
    forall k | k in books
      ensures books[k] in r
    {
    }
  }

  /** `restore_library_archive` without overwriting. */
  method RestoreLibraryArchive(archive: Archive, port: LibraryPort) returns (r: Result<nat, LibraryError>)
    requires port.Valid()
    modifies port
    ensures port.Valid()
    ensures Validated(archive).Err? ==> r == Err(Validated(archive).error)
    ensures Validated(archive).Ok? ==> (r == Err(TargetNotEmpty) <==> old(port.books) != map[])
    ensures r.Ok? ==> Validated(archive).Ok? && port.books == PutAll(map[], Validated(archive).value)
    ensures r.Err? ==> port.books == old(port.books) && (Validated(archive).Ok? ==> r == Err(TargetNotEmpty))
  {
    hide Parsed;
    var parsed := Validated(archive);
    if parsed.Err? {
      return Err(parsed.error);
    }
    ParsedEntries(archive.books);
    if port.books != map[] {
      return Err(TargetNotEmpty);
    }
    var books := parsed.value;
    for i := 0 to |books|
      invariant port.Valid() && port.books == PutAll(map[], books[..i])
    {
      assert books[..i + 1][..i] == books[..i];
      port.PutBook(books[i]);
    }
    assert books[..|books|] == books;
    return Ok(|books|);
  }

  lemma ParsedEntries(raws: seq<Book>)
    requires Parsed(raws).Ok?
    ensures forall i :: 0 <= i < |Parsed(raws).value| ==> DistinctEntries(Parsed(raws).value[i])
  {
    hide Parsed, RereadBook, DistinctEntries;
    ParsedPointwise(raws);
    forall i | 0 <= i < |raws|
      ensures DistinctEntries(Parsed(raws).value[i])
    {
      RereadDistinct(raws[i]);
    }
  }
}
