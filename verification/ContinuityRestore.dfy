/** Restoring a runtime in place: stage, swap, validate, and roll back (identity/restore.py). */
module ContinuityRestore {
  import opened Outcomes
  import opened Text
  import opened LibraryScoring
  import opened LibraryIndex
  import opened MemorySpec
  import opened MemoryPorts
  import opened ContinuitySpec
  import MemoryArchive
  import LibraryArchive

  class EgoRegistry {
    var egos: map<string, Manifest>

    ghost predicate Valid()
      reads this
    {
      forall k :: k in egos ==> egos[k].id == k
    }

    constructor ()
      ensures Valid() && egos == map[]
    {
      egos := map[];
    }

    method Register(m: Manifest) returns (ok: bool)
      requires Valid()
      modifies this
      ensures Valid() && ok == (m.id !in old(egos)) && egos == if ok then old(egos)[m.id := m] else old(egos)
    {
      if m.id in egos {
        return false;
      }
      egos := egos[m.id := m];
      return true;
    }
  }

  /** The governed write path; the governor and the quarantine are known by their identities. */
  class MemoryWritePipeline {
    const memory: InMemoryMemoryPort
    const governor: nat
    const quarantine: nat

    constructor (memory: InMemoryMemoryPort, governor: nat, quarantine: nat)
      ensures this.memory == memory && this.governor == governor && this.quarantine == quarantine
    {
      this.memory, this.governor, this.quarantine := memory, governor, quarantine;
    }
  }

  class Runtime {
    const engines: set<string>
    const lex: Lexer
    const governor: nat
    var identity: Charter
    var state: AgentState
    var memory: InMemoryMemoryPort
    var egos: EgoRegistry
    var library: LibraryPort?
    var retriever: LexicalLibraryRetriever?
    var pipeline: MemoryWritePipeline

    constructor (
      engines: set<string>, lex: Lexer, governor: nat, identity: Charter, state: AgentState, memory: InMemoryMemoryPort,
      egos: EgoRegistry, library: LibraryPort?, pipeline: MemoryWritePipeline)
      requires egos.Valid() && (library != null ==> library.Valid()) && lex("") == {}
      ensures Valid() && this.engines == engines && this.retriever == null && this.pipeline == pipeline
      ensures Now() ==
                View(identity, state, memory.records, egos.egos, if library == null then None else Some(library.books))
    {
      this.engines, this.lex, this.governor := engines, lex, governor;
      this.identity, this.state, this.memory, this.egos, this.library, this.retriever, this.pipeline :=
        identity, state, memory, egos, library, null, pipeline;
    }

    ghost predicate Valid()
      reads this, egos, library
    {
      egos.Valid() && (library != null ==> library.Valid()) && lex("") == {}
    }

    ghost function Now(): View
      reads this, memory, egos, library
    {
      View(identity, state, memory.records, egos.egos, if library == null then None else Some(library.books))
    }
  }

  /** What a factory's store holds, if there is a factory. */
  function RecordsOf(stage: InMemoryMemoryPort?): Option<seq<Record>>
    reads stage
  {
    if stage == null then None else Some(stage.records)
  }

  function BooksOf(stage: LibraryPort?): Option<map<string, Book>>
    reads stage
  {
    if stage == null then None else Some(stage.books)
  }

  method OrderedBooks(port: LibraryPort) returns (r: seq<Book>)
    requires port.Valid()
    ensures r == LibraryArchive.InOrder(port.books)
  {
    r := port.ListBooks();
    LibraryArchive.OneOrder(port.books, r, LibraryArchive.InOrder(port.books));
  }

  /** `_runtime_library_reference` */
  method RuntimeLibraryReference(rt: Runtime) returns (r: Option<Reference>)
    requires rt.Valid()
    ensures r == LibraryReference(rt.Now().library)
  {
    if rt.library == null {
      return None;
    }
    var books := OrderedBooks(rt.library);
    return Some(Reference("library", "library://authoritative", Some(OfBooks(books)),
                          Some(LibraryArchive.LIBRARY_SCHEMA)));
  }

  /** `build_identity_snapshot` with a given library reference. */
  method BuildSnapshot(rt: Runtime, policy: string, library: Option<Reference>) returns (s: Snapshot)
    ensures s == BuildWith(rt.Now(), policy, library)
  {
    s := Snapshot(rt.identity.agentId, IdentityPart(rt.identity.agentId, rt.identity.name, rt.identity.principles),
                  StateOf(rt.state), GoalsOf(rt.state.goal), MemoryReference(rt.memory.records),
                  EgoReference(rt.egos.egos), library, policy, SNAPSHOT_SCHEMA, []);
  }

  method PlanRestore(rt: Runtime, s: Snapshot, target: string) returns (unblocked: bool, needs: Needs)
    requires rt.Valid()
    ensures unblocked == Unblocked(s, rt.Now(), rt.engines, target) && needs == NeedsOf(s, rt.Now())
  {
    hide LibraryArchive.InOrder, MemoryArchive.ToRaws, LibraryArchive.PortSound;
    var auto := RuntimeLibraryReference(rt);
    var current := BuildSnapshot(rt, s.policy, auto);
    unblocked := ValidSnapshot(s) && target in rt.engines && current.agentId == s.agentId;
    var libraryDiffers := Authoritative(s.library) && current.library != s.library;
    needs := Needs(current.memory != s.memory, current.egos != s.egos, libraryDiffers, current.state != s.state);
  }

  method StageMemory(s: Snapshot, a: Artifacts, stage: InMemoryMemoryPort?, at: int)
    returns (r: Result<InMemoryMemoryPort, RestoreError>)
    modifies if stage == null then {} else {stage}
    ensures match StagedMemory(s, a, old(RecordsOf(stage)))
            case Err(e) => r == Err(e)
            case Ok(records) => r.Ok? && r.value == stage && r.value.records == records
  {
    hide MemoryArchive.Parsed, MemoryArchive.ToRaws;
    if a.memory.None? {
      return Err(MemoryArtifactRequired);
    }
    if stage == null {
      return Err(MemoryFactoryRequired);
    }
    var validated := MemoryArchive.Validated(a.memory.value);
    if validated.Err? {
      return Err(MemoryRejected);
    }
    if s.memory.digest != Some(OfMemory(a.memory.value.digest.value)) {
      return Err(MemoryRejected);
    }
    if stage.records != [] {
      return Err(MemoryStageNotEmpty);
    }
    var restored := MemoryArchive.RestoreMemoryArchive(stage, a.memory.value, at);
    assert restored.Ok? && stage.records == validated.value;
    if s.memory.digest != MemoryReference(stage.records).digest {
      return Err(MemoryRejected);
    }
    return Ok(stage);
  }

  method StageEgos(s: Snapshot, a: Artifacts) returns (r: Result<EgoRegistry, RestoreError>)
    ensures match StagedEgos(s, a)
            case Err(e) => r == Err(e)
            case Ok(egos) => r.Ok? && fresh(r.value) && r.value.Valid() && r.value.egos == egos
  {
    hide Registered;
    if a.manifests.None? {
      return Err(EgoArtifactRequired);
    }
    var manifests := a.manifests.value;
    var candidate := new EgoRegistry();
    for i := 0 to |manifests|
      invariant candidate.Valid() && fresh(candidate) && RegisteredAll(manifests[..i]) == Some(candidate.egos)
    {
      assert manifests[..i + 1][..i] == manifests[..i];
      var ok := candidate.Register(manifests[i]);
      if !ok {
        NotRegistered(manifests, i + 1);
        return Err(EgosRejected);
      }
    }
    assert manifests[..|manifests|] == manifests;
    if s.egos.digest != EgoReference(candidate.egos).digest {
      return Err(EgosRejected);
    }
    return Ok(candidate);
  }

  /** A repeated id among the first manifests makes the registration of all fail. */
  lemma {:induction false} NotRegistered(manifests: seq<Manifest>, n: nat)
    requires n <= |manifests| && RegisteredAll(manifests[..n]).None?
    ensures RegisteredAll(manifests).None?
    decreases |manifests|
  {
    if n < |manifests| {
      assert manifests[..|manifests| - 1][..n] == manifests[..n];
      NotRegistered(manifests[..|manifests| - 1], n);
    } else {
      assert manifests[..n] == manifests;
    }
  }

  method StageLibrary(s: Snapshot, a: Artifacts, stage: LibraryPort?) returns (r: Result<LibraryPort, RestoreError>)
    requires s.library.Some? && (stage != null ==> stage.Valid())
    modifies if stage == null then {} else {stage}
    ensures match StagedLibrary(s, a, old(BooksOf(stage)))
            case Err(e) => r == Err(e)
            case Ok(books) => r.Ok? && r.value == stage && r.value.Valid() && r.value.books == books
  {
    hide LibraryArchive.Parsed, LibraryArchive.InOrder, LibraryArchive.PutAll;
    if a.library.None? {
      return Err(LibraryArtifactRequired);
    }
    if stage == null {
      return Err(LibraryFactoryRequired);
    }
    var validated := LibraryArchive.Validated(a.library.value);
    if validated.Err? {
      return Err(LibraryRejected);
    }
    if s.library.value.digest != Some(OfBooks(a.library.value.digest.value)) {
      return Err(LibraryRejected);
    }
    if stage.books != map[] {
      return Err(LibraryStageNotEmpty);
    }
    var restored := LibraryArchive.RestoreLibraryArchive(a.library.value, stage);
    var books := OrderedBooks(stage);
    if s.library.value.digest != Some(OfBooks(books)) {
      return Err(LibraryRejected);
    }
    return Ok(stage);
  }

  /** `validate_snapshot_against_runtime` */
  method ValidateAgainst(rt: Runtime, s: Snapshot) returns (ok: bool)
    requires rt.Valid()
    ensures ok == Matches(s, rt.Now())
  {
    hide LibraryArchive.InOrder, MemoryArchive.ToRaws, LibraryArchive.PortSound;
    var library := RuntimeLibraryReference(rt);
    ok := && ValidSnapshot(s) && rt.identity.agentId == s.agentId
          && s.memory.digest == MemoryReference(rt.memory.records).digest
          && s.egos.digest == EgoReference(rt.egos.egos).digest
          && (Authoritative(s.library) ==> library == s.library) && StateOf(rt.state) == s.state;
  }

  /** The seven components a restore replaces. */
  datatype Components = Components(
    identity: Charter, state: AgentState, memory: InMemoryMemoryPort, egos: EgoRegistry, library: LibraryPort?,
    retriever: LexicalLibraryRetriever?, pipeline: MemoryWritePipeline)

  function ComponentsOf(rt: Runtime): Components
    reads rt
  {
    Components(rt.identity, rt.state, rt.memory, rt.egos, rt.library, rt.retriever, rt.pipeline)
  }

  datatype Parts = Parts(memory: InMemoryMemoryPort, egos: EgoRegistry, library: LibraryPort?)

  /** The view a swap makes. */
  ghost function Restored(s: Snapshot, target: string, p: Parts): View
    reads p.memory, p.egos, p.library
  {
    View(Charter(s.agentId, s.identity.name, s.identity.principles),
         AgentState(target, s.state.project, s.state.goal, s.state.tags),
         p.memory.records, p.egos.egos, if p.library == null then None else Some(p.library.books))
  }

  /** Stage every store the plan asks for; the runtime is only read. */
  method StageAll(
    rt: Runtime, s: Snapshot, target: string, a: Artifacts, needs: Needs, memoryStage: InMemoryMemoryPort?,
    libraryStage: LibraryPort?, at: int)
    returns (r: Result<Parts, RestoreError>)
    requires rt.Valid() && needs == NeedsOf(s, rt.Now())
    requires memoryStage != rt.memory && (libraryStage != null ==> libraryStage.Valid() && libraryStage != rt.library)
    modifies if memoryStage == null then {} else {memoryStage}, if libraryStage == null then {} else {libraryStage}
    ensures rt.Valid() && rt.Now() == old(rt.Now())
    ensures Staged(s, rt.Now(), target, a, old(RecordsOf(memoryStage)), old(BooksOf(libraryStage))) ==
              match r { case Err(e) => Err(e) case Ok(p) => Ok(Restored(s, target, p)) }
    ensures r.Ok? ==> r.value.egos.Valid() && (r.value.library != null ==> r.value.library.Valid())
    ensures r.Ok? ==> if needs.library then r.value.library != null else r.value.library == rt.library
  {
    hide LibraryArchive.InOrder, MemoryArchive.ToRaws, LibraryArchive.PortSound, StagedMemory, StagedEgos;
    hide StagedLibrary, NeedsOf;
    var memory := rt.memory;
    if needs.memory {
      var staged := StageMemory(s, a, memoryStage, at);
      if staged.Err? {
        return Err(staged.error);
      }
      memory := staged.value;
    }
    var egos := rt.egos;
    if needs.egos {
      var staged := StageEgos(s, a);
      if staged.Err? {
        return Err(staged.error);
      }
      egos := staged.value;
    }
    var library := rt.library;
    if needs.library {
      NeedsLibrary(s, rt.Now());
      var staged := StageLibrary(s, a, libraryStage);
      if staged.Err? {
        return Err(staged.error);
      }
      library := staged.value;
    }
    return Ok(Parts(memory, egos, library));
  }

  lemma RuntimeSound(rt: Runtime)
    requires rt.Valid()
    ensures ContinuitySpec.Sound(rt.Now())
  {
  }

  /** A retriever, when the library is swapped, indexes the swapped library. */
  ghost predicate Indexed(rt: Runtime)
    reads rt, rt.library, rt.retriever
  {
    && rt.library != null && rt.retriever != null && rt.retriever.port == rt.library && rt.retriever.Valid()
    && Lists(rt.library.books, rt.retriever.index.books)
  }

  method SwapIn(rt: Runtime, s: Snapshot, target: string, p: Parts, swapLibrary: bool)
    requires rt.Valid() && p.egos.Valid() && (p.library != null ==> p.library.Valid())
    requires if swapLibrary then p.library != null else p.library == rt.library
    modifies rt
    ensures rt.Valid() && rt.Now() == Restored(s, target, p) && rt.memory == p.memory
    ensures rt.pipeline.memory == rt.memory && rt.pipeline.quarantine == old(rt.pipeline).quarantine &&
              rt.pipeline.governor == rt.governor
    ensures swapLibrary ==> Indexed(rt)
  {
    hide Lists, Indexes;
    var quarantine := rt.pipeline.quarantine;
    rt.identity, rt.state :=
      Charter(s.agentId, s.identity.name, s.identity.principles),
      AgentState(target, s.state.project, s.state.goal, s.state.tags);
    rt.memory, rt.egos := p.memory, p.egos;
    if swapLibrary {
      rt.library := p.library;
      rt.retriever := new LexicalLibraryRetriever(rt.lex, p.library);
    }
    rt.pipeline := new MemoryWritePipeline(p.memory, rt.governor, quarantine);
  }

  /** The validation after the swap: the snapshot's claims, and a second snapshot that equals the first. */
  method Confirms(rt: Runtime, s: Snapshot) returns (ok: bool)
    requires rt.Valid()
    ensures ok == (Matches(s, rt.Now()) && BuildWith(rt.Now(), s.policy, s.library) == s)
  {
    hide Matches, BuildWith;
    var valid := ValidateAgainst(rt, s);
    var post := BuildSnapshot(rt, s.policy, s.library);
    ok := valid && post == s;
  }

  method PutBack(rt: Runtime, before: Components)
    modifies rt
    ensures ComponentsOf(rt) == before
  {
    rt.identity, rt.state, rt.memory, rt.egos := before.identity, before.state, before.memory, before.egos;
    rt.library, rt.retriever, rt.pipeline := before.library, before.retriever, before.pipeline;
  }

  /** Swap the components in, validate, and put the old ones back when the validation fails. */
  method Swap(rt: Runtime, s: Snapshot, target: string, p: Parts, swapLibrary: bool) returns (ok: bool)
    requires rt.Valid() && p.egos.Valid() && (p.library != null ==> p.library.Valid())
    requires if swapLibrary then p.library != null else p.library == rt.library
    modifies rt
    ensures rt.Valid() && ContinuitySpec.Sound(Restored(s, target, p))
    ensures ok == (Matches(s, Restored(s, target, p)) && BuildWith(Restored(s, target, p), s.policy, s.library) == s)
    ensures ok ==> rt.Now() == Restored(s, target, p)
    ensures !ok ==> ComponentsOf(rt) == old(ComponentsOf(rt)) && rt.Now() == old(rt.Now())
    ensures ok ==>
              rt.pipeline.memory == rt.memory && rt.pipeline.quarantine == old(rt.pipeline).quarantine &&
              rt.pipeline.governor == rt.governor
    ensures ok && swapLibrary ==> Indexed(rt)
  {
    hide LibraryArchive.InOrder, MemoryArchive.ToRaws, Matches, BuildWith, Lists, Indexes, ContinuitySpec.Sound;
    hide Indexed;
    var before := ComponentsOf(rt);
    SwapIn(rt, s, target, p, swapLibrary);
    RuntimeSound(rt);
    ok := Confirms(rt, s);
    if !ok {
      PutBack(rt, before);
    }
  }

  /** A restore either leaves all seven components as they were or leaves a runtime with the snapshot's fingerprint. */
  method ApplyRestore(
    rt: Runtime, s: Snapshot, target: string, a: Artifacts, memoryStage: InMemoryMemoryPort?,
    libraryStage: LibraryPort?, at: int)
    returns (r: Result<(), RestoreError>)
    requires rt.Valid() && (libraryStage != null ==> libraryStage.Valid() && libraryStage != rt.library)
    requires memoryStage != rt.memory
    modifies rt, if memoryStage == null then {} else {memoryStage}, if libraryStage == null then {} else {libraryStage}
    ensures rt.Valid()
    ensures Outcome(s, old(rt.Now()), rt.engines, target, a, old(RecordsOf(memoryStage)), old(BooksOf(libraryStage))) ==
              match r { case Err(e) => Err(e) case Ok(_) => Ok(rt.Now()) }
    ensures r.Err? ==> ComponentsOf(rt) == old(ComponentsOf(rt)) && rt.Now() == old(rt.Now())
    ensures r.Ok? ==> BuildWith(rt.Now(), s.policy, s.library) == s
    ensures r.Ok? ==>
              rt.pipeline.memory == rt.memory && rt.pipeline.quarantine == old(rt.pipeline).quarantine &&
              rt.pipeline.governor == rt.governor
    ensures r.Ok? && NeedsOf(s, old(rt.Now())).library ==> Indexed(rt)
  {
    hide LibraryArchive.InOrder, MemoryArchive.ToRaws, LibraryArchive.PortSound, Staged, NeedsOf, Unblocked, Matches;
    hide BuildWith, Lists, Indexes, Indexed;
    var unblocked, needs := PlanRestore(rt, s, target);
    if !unblocked {
      return Err(Blocked);
    }
    if Blank(target) {
      return Err(EngineRequired);
    }
    var staged := StageAll(rt, s, target, a, needs, memoryStage, libraryStage, at);
    if staged.Err? {
      return Err(staged.error);
    }
    var swapped := Swap(rt, s, target, staged.value, needs.library);
    if !swapped {
      return Err(PostRestoreMismatch);
    }
    return Ok(());
  }

  lemma NeedsLibrary(s: Snapshot, v: View)
    requires ContinuitySpec.Sound(v) && NeedsOf(s, v).library
    ensures s.library.Some?
  {
  }
}
