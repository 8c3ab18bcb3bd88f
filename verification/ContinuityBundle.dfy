/** Continuity bundles: everything a restore needs, taken from one runtime (identity/bundle.py). */
module ContinuityBundle {
  import opened Outcomes
  import opened Sorting
  import opened Listing
  import opened Text
  import opened Normalized
  import opened UsageNotes
  import opened LibraryScoring
  import opened LibraryIndex
  import opened MemorySpec
  import opened ContinuitySpec
  import MemoryArchive
  import LibraryArchive

  datatype Bundle = Bundle(
    snapshot: Snapshot, memory: MemoryArchive.Archive, manifests: seq<Manifest>,
    library: Option<LibraryArchive.Archive>)

  ghost function Each(egos: map<string, Manifest>, ids: seq<string>): (r: seq<Manifest>)
    requires forall i :: 0 <= i < |ids| ==> ids[i] in egos
    ensures |r| == |ids| && forall i :: 0 <= i < |ids| ==> r[i] == egos[ids[i]]
  {
    seq(|ids|, i requires 0 <= i < |ids| => egos[ids[i]])
  }

  /** The manifests in the order of their ids. */
  ghost function Manifests(egos: map<string, Manifest>): (r: seq<Manifest>)
    requires forall k :: k in egos ==> egos[k].id == k
    ensures RegisteredAll(r) == Some(egos)
  {
    var ids := IdsInOrder(egos.Keys);
    assert forall i :: 0 <= i < |ids| ==> ids[i] in ids;
    EachRegisters(egos, ids, Each(egos, ids));
    Each(egos, ids)
  }

  lemma EachRegisters(egos: map<string, Manifest>, ids: seq<string>, r: seq<Manifest>)
    requires forall k :: k in egos ==> egos[k].id == k
    requires NoRepeats(ids) && forall k :: k in ids <==> k in egos.Keys
    requires |r| == |ids| && forall i :: 0 <= i < |ids| ==> ids[i] in egos && r[i] == egos[ids[i]]
    ensures RegisteredAll(r) == Some(egos)
  {
    hide RegisteredAll;
    AllRegister(egos, ids, r);
    var m := RegisteredAll(r).value;
    assert m.Keys == egos.Keys;
    assert m == egos;
  }

  lemma {:induction false} AllRegister(egos: map<string, Manifest>, ids: seq<string>, r: seq<Manifest>)
    requires forall k :: k in egos ==> egos[k].id == k
    requires NoRepeats(ids) && |r| == |ids| && forall i :: 0 <= i < |ids| ==> ids[i] in egos && r[i] == egos[ids[i]]
    ensures RegisteredAll(r).Some?
    ensures forall k :: k in RegisteredAll(r).value <==> k in ids
    ensures forall k :: k in RegisteredAll(r).value ==> k in egos && RegisteredAll(r).value[k] == egos[k]
  {
    if ids != [] {
      var front, last := ids[..|ids| - 1], ids[|ids| - 1];
      assert ids == front + [last];
      AllRegister(egos, front, r[..|r| - 1]);
      assert last !in front && r[|r| - 1].id == last;
    }
  }

  /** `build_continuity_bundle` before it validates what it built. */
  ghost function Bundled(v: View, policy: string): Bundle
    requires Sound(v)
  {
    Bundle(ContinuitySpec.Build(v, policy), MemoryArchive.BuildArchive(v.memory), Manifests(v.egos),
           if v.library.None? then None else Some(LibraryArchive.BuildArchive(v.library.value)))
  }

  /** `validate_continuity_bundle` raises nothing. */
  predicate ValidBundle(b: Bundle) {
    && b.snapshot.memory.kind == "memory" && b.snapshot.egos.kind == "ego_registry"
    && b.snapshot.memory.digest.Some? && b.snapshot.egos.digest.Some?
    && MemoryArchive.Validated(b.memory).Ok?
    && (b.snapshot.memory.schema.Some? ==> b.memory.memorySchema == b.snapshot.memory.schema.value)
    && b.snapshot.memory.digest == Some(OfMemory(b.memory.records))
    && RegisteredAll(b.manifests).Some?
    && (b.snapshot.egos.schema.Some? ==> b.snapshot.egos.schema.value == 1)
    && b.snapshot.egos.digest == Some(OfEgos(Registered(RegisteredAll(b.manifests).value)))
    && (if b.snapshot.library.None? then b.library.None?
        else b.snapshot.library.value.kind == "library" && ValidLibraryPart(b.snapshot.library.value, b.library))
  }

  predicate ValidLibraryPart(r: Reference, archive: Option<LibraryArchive.Archive>) {
    if !Authoritative(Some(r)) then archive.None?
    else
      && r.digest.Some? && archive.Some? && LibraryArchive.Validated(archive.value).Ok?
      && (r.schema.Some? ==> archive.value.librarySchema == r.schema.value)
      && r.digest == Some(OfBooks(archive.value.books))
  }

  ghost predicate Storable(records: seq<Record>) {
    MemorySpec.UniqueIds(records) && forall r :: r in records ==> MemoryArchive.WellFormed(r)
  }

  /**
   * Building a bundle succeeds exactly when the records are well formed with distinct ids and the
   * books can be read back.
   */
  lemma BundleValidIff(v: View, policy: string)
    requires Sound(v)
    ensures ValidBundle(Bundled(v, policy)) <==>
              Storable(v.memory) &&
              (v.library.Some? ==> LibraryArchive.Parsed(LibraryArchive.InOrder(v.library.value)).Ok?)
  {
    hide LibraryArchive.InOrder, LibraryArchive.PortSound, LibraryArchive.Parsed, MemoryArchive.Parsed;
    hide MemoryArchive.ToRaws, Registered, MemoryArchive.WellFormed, RegisteredAll;
    MemoryArchive.ArchiveRoundTrip(v.memory);
  }

  // ----- reading back is idempotent -----

  lemma {:induction false} NotesIdempotent(notes: seq<Note>)
    ensures var r := LibraryArchive.RereadNotes(notes); r.Some? ==> LibraryArchive.RereadNotes(r.value) == r
  {
    hide Strip, Cleaned;
    if notes != [] {
      NotesIdempotent(notes[1..]);
      StripIdempotent(notes[0].text);
      CleanedIdempotent(notes[0].applies);
      CleanedIdempotent(notes[0].verification);
      var rest := LibraryArchive.RereadNotes(notes[1..]);
      if rest.Some? {
        assert ([Reread(notes[0])] + rest.value)[1..] == rest.value;
      }
    }
  }

  lemma EntryIdempotent(e: Entry)
    ensures LibraryArchive.RereadEntry(e).Some? ==>
              LibraryArchive.RereadEntry(LibraryArchive.RereadEntry(e).value) == LibraryArchive.RereadEntry(e)
  {
    hide Strip, Cleaned;
    StripIdempotent(e.entryId);
    StripIdempotent(e.title);
    StripIdempotent(e.summary);
    StripIdempotent(e.hint);
    CleanedIdempotent(e.aliases);
    CleanedIdempotent(e.tags);
    CleanedIdempotent(e.useWhen);
    CleanedIdempotent(e.avoidWhen);
    CleanedIdempotent(e.structure);
    CleanedIdempotent(e.tradeoffs);
    CleanedIdempotent(e.pitfalls);
    CleanedIdempotent(e.provenance);
    StripIdempotent(e.trust);
    StripIdempotent(e.validation);
    NotesIdempotent(e.notes);
  }

  lemma {:induction false} EntriesIdempotent(entries: seq<Entry>)
    ensures LibraryArchive.RereadEntries(entries).Some? ==>
              LibraryArchive.RereadEntries(LibraryArchive.RereadEntries(entries).value) ==
              LibraryArchive.RereadEntries(entries)
  {
    hide LibraryArchive.RereadEntry;
    if entries != [] {
      EntryIdempotent(entries[0]);
      EntriesIdempotent(entries[1..]);
      var first, rest := LibraryArchive.RereadEntry(entries[0]), LibraryArchive.RereadEntries(entries[1..]);
      if first.Some? && rest.Some? {
        assert ([first.value] + rest.value)[1..] == rest.value;
      }
    }
  }

  /** A book read back is canonical. */
  lemma RereadCanonical(b: Book)
    ensures LibraryArchive.RereadBook(b).Ok? ==> LibraryArchive.CanonicalBook(LibraryArchive.RereadBook(b).value)
  {
    hide Strip, LibraryArchive.RereadEntries, DistinctEntries;
    StripIdempotent(b.bookId);
    StripIdempotent(b.title);
    StripIdempotent(b.version);
    StripIdempotent(b.description);
    StripIdempotent(b.trust);
    StripIdempotent(b.validation);
    CleanedIdempotent(b.provenance);
    EntriesIdempotent(b.entries);
  }

  // ----- restoring a bundle -----

  function ArtifactsOf(b: Bundle): Artifacts {
    Artifacts(Some(b.memory), Some(b.manifests), b.library)
  }

  /** Restoring a bundle taken from `a` onto `b`, with empty stores from the factories. */
  ghost function RestoredFrom(
    a: View, b: View, policy: string, engines: set<string>, target: string): Result<View, RestoreError>
    requires Sound(a) && Sound(b)
  {
    var x := Bundled(a, policy);
    Outcome(x.snapshot, b, engines, target, ArtifactsOf(x), Some([]), Some(map[]))
  }

  ghost predicate GoalCapturable(v: View) {
    v.state.goal.None? || !Blank(v.state.goal.value)
  }

  ghost predicate CanonicalBooks(library: Option<map<string, Book>>) {
    library.Some? ==> forall k :: k in library.value ==> LibraryArchive.CanonicalBook(library.value[k])
  }

  /** Canonical books are staged exactly as they were. */
  lemma CanonicalStaged(books: map<string, Book>)
    requires LibraryArchive.PortSound(books) && forall k :: k in books ==> LibraryArchive.CanonicalBook(books[k])
    ensures var r := LibraryArchive.InOrder(books);
            LibraryArchive.Parsed(r) == Ok(r) && LibraryArchive.PortSound(LibraryArchive.PutAll(map[], r)) &&
            LibraryArchive.InOrder(LibraryArchive.PutAll(map[], r)) == r
  {
    hide LibraryArchive.CanonicalBook, LibraryArchive.PutAll, DistinctEntries, LibraryArchive.Parsed;
    var r := LibraryArchive.InOrder(books);
    LibraryArchive.ArchiveRoundTrip(books);
    LibraryArchive.PutAllLists(r);
    var staged := LibraryArchive.PutAll(map[], r);
    LibraryArchive.OneOrder(staged, r, LibraryArchive.InOrder(staged));
  }

  /** Books that come back as the same books were canonical. */
  lemma StagedWasCanonical(books: map<string, Book>, read: seq<Book>)
    requires LibraryArchive.PortSound(books) && LibraryArchive.Parsed(LibraryArchive.InOrder(books)) == Ok(read)
    requires LibraryArchive.PortSound(LibraryArchive.PutAll(map[], read)) &&
               LibraryArchive.InOrder(LibraryArchive.PutAll(map[], read)) == LibraryArchive.InOrder(books)
    ensures forall k :: k in books ==> LibraryArchive.CanonicalBook(books[k])
  {
    hide LibraryArchive.CanonicalBook, LibraryArchive.PutAll, DistinctEntries, LibraryArchive.Parsed;
    hide LibraryArchive.RereadBook;
    var r := LibraryArchive.InOrder(books);
    LibraryArchive.ParsedPointwise(r);
    LibraryArchive.ParsedUnique(r);
    LibraryArchive.PutAllLists(read);
    forall k | k in books
      ensures LibraryArchive.CanonicalBook(books[k])
    {
      assert books[k] in r;
      assert books[k] in read;
      var i :| 0 <= i < |read| && read[i] == books[k];
      RereadCanonical(r[i]);
    }
  }

  /** The listing of a port tells its books. */
  lemma SameListing(x: map<string, Book>, y: map<string, Book>)
    requires LibraryArchive.PortSound(x) && LibraryArchive.PortSound(y)
    requires LibraryArchive.InOrder(x) == LibraryArchive.InOrder(y)
    ensures x == y
  {
    hide LibraryArchive.InOrder, DistinctEntries, LibraryArchive.Ordered;
    var listed := LibraryArchive.InOrder(x);
    forall k
      ensures k in x <==> k in y
      ensures k in x && k in y ==> x[k] == y[k]
    {
      if k in x {
        assert x[k] in listed;
      }
      if k in y {
        assert y[k] in listed;
      }
    }
  }

  /** Staging a bundle's library succeeds exactly when its books are canonical, and stages just them. */
  lemma BundleLibraryIff(a: View, policy: string)
    requires Sound(a) && a.library.Some?
    ensures var b := Bundled(a, policy);
            var r := StagedLibrary(b.snapshot, ArtifactsOf(b), Some(map[]));
            (r.Ok? <==> CanonicalBooks(a.library)) && (r.Ok? ==> r == Ok(a.library.value))
  {
    hide LibraryArchive.CanonicalBook, LibraryArchive.PutAll, LibraryArchive.Parsed, LibraryArchive.InOrder;
    hide MemoryArchive.ToRaws, LibraryArchive.PortSound, Registered, Manifests;
    var books := a.library.value;
    if CanonicalBooks(a.library) {
      CanonicalStaged(books);
    }
    var parsed := LibraryArchive.Parsed(LibraryArchive.InOrder(books));
    if parsed.Ok? {
      LibraryArchive.ParsedUnique(LibraryArchive.InOrder(books));
      LibraryArchive.PutAllLists(parsed.value);
      if LibraryArchive.InOrder(LibraryArchive.PutAll(map[], parsed.value)) == LibraryArchive.InOrder(books) {
        StagedWasCanonical(books, parsed.value);
        SameListing(LibraryArchive.PutAll(map[], parsed.value), books);
      }
    }
  }

  lemma BundleMemoryStaged(a: View, policy: string)
    requires Sound(a) && Storable(a.memory)
    ensures var b := Bundled(a, policy); StagedMemory(b.snapshot, ArtifactsOf(b), Some([])) == Ok(a.memory)
  {
    hide MemoryArchive.Parsed, MemoryArchive.ToRaws, LibraryArchive.InOrder, LibraryArchive.PortSound, Registered;
    hide Manifests, MemoryArchive.WellFormed;
    MemoryArchive.ArchiveRoundTrip(a.memory);
  }

  lemma BundleEgosStaged(a: View, policy: string)
    requires Sound(a)
    ensures var b := Bundled(a, policy); StagedEgos(b.snapshot, ArtifactsOf(b)) == Ok(a.egos)
  {
    hide MemoryArchive.ToRaws, LibraryArchive.InOrder, LibraryArchive.PortSound, Registered, RegisteredAll;
  }

  lemma {:induction false} RawsInjective(x: seq<Record>, y: seq<Record>)
    requires MemoryArchive.ToRaws(x) == MemoryArchive.ToRaws(y)
    ensures x == y
  {
    forall i | 0 <= i < |x|
      ensures x[i] == y[i]
    {
      assert MemoryArchive.ToRaws(x)[i] == MemoryArchive.ToRaws(y)[i];
    }
  }

  /** Equal library references are references to equal libraries. */
  lemma SameLibrary(x: Option<map<string, Book>>, y: Option<map<string, Book>>)
    requires x.Some? ==> LibraryArchive.PortSound(x.value)
    requires y.Some? ==> LibraryArchive.PortSound(y.value)
    requires LibraryReference(x) == LibraryReference(y)
    ensures x == y
  {
    hide LibraryArchive.InOrder, LibraryArchive.PortSound;
    if x.Some? {
      SameListing(x.value, y.value);
    }
  }

  /** Registries with one digest differ in the instructions of second-generation manifests at most. */
  lemma SameRegistry(x: map<string, Manifest>, y: map<string, Manifest>)
    requires forall k :: k in x ==> x[k].id == k
    requires forall k :: k in y ==> y[k].id == k
    requires EgoReference(x) == EgoReference(y)
    ensures x.Keys == y.Keys
    ensures forall k :: k in x ==> x[k] == if x[k].second then y[k].(instructions := x[k].instructions) else y[k]
    ensures (forall k :: k in x ==> !x[k].second) ==> x == y
  {
    assert Registered(x).Keys == x.Keys && Registered(y).Keys == y.Keys;
    forall k | k in x
      ensures x[k] == if x[k].second then y[k].(instructions := x[k].instructions) else y[k]
    {
      assert k in Registered(x) && Registered(x)[k] == Registered(y)[k];
    }
  }

  /** A restore leaves what was staged: no store it needs comes from elsewhere. */
  lemma RestoredStaged(a: View, b: View, policy: string, engines: set<string>, target: string)
    requires Sound(a) && Sound(b) && RestoredFrom(a, b, policy, engines, target).Ok?
    ensures var x := Bundled(a, policy);
            && Staged(x.snapshot, b, target, ArtifactsOf(x), Some([]), Some(map[])).Ok?
            && RestoredFrom(a, b, policy, engines, target) ==
               Staged(x.snapshot, b, target, ArtifactsOf(x), Some([]), Some(map[]))
  {
    hide Staged, Matches, BuildWith, Unblocked, Bundled, ArtifactsOf;
  }

  /**
   * What a restored bundle brings back: memory, identity, state and, if `a` has a library, its
   * books. The capabilities are those of `a`, unless `b` already holds a registry with its digest.
   */
  lemma BundleBringsBack(a: View, b: View, policy: string, engines: set<string>, target: string)
    requires Sound(a) && Sound(b) && Storable(a.memory) && RestoredFrom(a, b, policy, engines, target).Ok?
    ensures var r := RestoredFrom(a, b, policy, engines, target).value;
            && r.memory == a.memory && r.charter == a.charter
            && StateOf(r.state) == StateOf(a.state) && r.state.engine == target
            && r.library == (if a.library.Some? then a.library else b.library)
            && r.egos == (if EgoReference(b.egos) == EgoReference(a.egos) then b.egos else a.egos)
  {
    hide LibraryArchive.InOrder, LibraryArchive.PortSound, MemoryArchive.ToRaws, Registered, Manifests, Blank;
    hide StagedLibrary, StagedMemory, StagedEgos, CanonicalBooks, LibraryArchive.BuildArchive, RestoredFrom;
    hide MemoryArchive.BuildArchive;
    RestoredStaged(a, b, policy, engines, target);
    BundleMemoryStaged(a, policy);
    BundleEgosStaged(a, policy);
    if a.library.Some? {
      BundleLibraryIff(a, policy);
      if LibraryReference(b.library) == LibraryReference(a.library) {
        SameLibrary(b.library, a.library);
      }
    }
    if MemoryReference(b.memory) == MemoryReference(a.memory) {
      RawsInjective(b.memory, a.memory);
    }
  }

  /**
   * A bundle taken from `a` restores onto `b`, given empty stages, exactly when the goal is absent or not blank and the
   * books are canonical or already there; it then brings back the memory, the identity, the state and the books, and
   * the capabilities exactly when `b` holds no other registry with their digest.
   */
  lemma BundleRestoresIff(a: View, b: View, policy: string, engines: set<string>, target: string)
    requires Sound(a) && Sound(b) && Storable(a.memory)
    requires b.charter.agentId == a.charter.agentId && target in engines && !Blank(target)
    ensures RestoredFrom(a, b, policy, engines, target).Ok? <==>
              GoalCapturable(a) &&
              (CanonicalBooks(a.library) || LibraryReference(b.library) == LibraryReference(a.library))
    ensures var r := RestoredFrom(a, b, policy, engines, target);
            r.Ok? ==> r.value.memory == a.memory && r.value.charter == a.charter
    ensures var r := RestoredFrom(a, b, policy, engines, target);
            r.Ok? ==> StateOf(r.value.state) == StateOf(a.state) && r.value.state.engine == target
    ensures var r := RestoredFrom(a, b, policy, engines, target);
            r.Ok? ==> r.value.library == if a.library.Some? then a.library else b.library
    ensures var r := RestoredFrom(a, b, policy, engines, target);
            r.Ok? ==> (r.value.egos == a.egos <==> (EgoReference(b.egos) == EgoReference(a.egos) ==> b.egos == a.egos))
  {
    hide LibraryArchive.InOrder, LibraryArchive.PortSound, MemoryArchive.ToRaws, Registered, Manifests, Blank;
    hide StagedLibrary, StagedMemory, StagedEgos, CanonicalBooks, LibraryArchive.BuildArchive;
    hide MemoryArchive.BuildArchive;
    var x := Bundled(a, policy);
    var artifacts := ArtifactsOf(x);
    BundleMemoryStaged(a, policy);
    BundleEgosStaged(a, policy);
    if a.library.Some? {
      BundleLibraryIff(a, policy);
    }
    NoBooks(a.library);
    if Unblocked(x.snapshot, b, engines, target) &&
    Staged(x.snapshot, b, target, artifacts, Some([]), Some(map[])).Ok? {
      MismatchIff(x.snapshot, b, engines, target, artifacts, Some([]), Some(map[]));
    }
    if RestoredFrom(a, b, policy, engines, target).Ok? {
      BundleBringsBack(a, b, policy, engines, target);
    }
  }

  lemma NoBooks(library: Option<map<string, Book>>)
    ensures library.None? ==> CanonicalBooks(library)
  {
  }
}
