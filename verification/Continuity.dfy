/** Snapshots of a runtime and what restoring one needs (identity/snapshot.py, identity/restore.py), on values. */
module ContinuitySpec {
  import opened Outcomes
  import opened Text
  import opened LibraryScoring
  import opened LibraryIndex
  import opened MemorySpec
  import MemoryArchive
  import LibraryArchive

  datatype Charter = Charter(agentId: string, name: string, principles: seq<string>)

  datatype AgentState = AgentState(
    engine: string, project: Option<string>, goal: Option<string>, tags: map<string, string>)

  /** A capability manifest. The registry digest covers the instructions of first-generation manifests only. */
  datatype Manifest = Manifest(id: string, second: bool, described: string, instructions: string)

  datatype EgoItem = EgoItem(described: string, second: bool, instructions: Option<string>)

  function ItemOf(m: Manifest): EgoItem {
    EgoItem(m.described, m.second, if m.second then None else Some(m.instructions))
  }

  /** The registry payload, as a map from id; sorting by the unique ids makes the list form equivalent. */
  function Registered(egos: map<string, Manifest>): map<string, EgoItem> {
    map k | k in egos :: ItemOf(egos[k])
  }

  /** Digests, taken as injective: each stands for what it was taken of. */
  datatype Digest =
    | OfMemory(records: seq<MemoryArchive.Raw>) | OfEgos(items: map<string, EgoItem>) | OfBooks(books: seq<Book>)

  datatype Reference = Reference(kind: string, ref: string, digest: Option<Digest>, schema: Option<int>)

  datatype IdentityPart = IdentityPart(agentId: string, name: string, principles: seq<string>)

  /** `active_engine` must not be part of it; `Some` when a snapshot carries it anyway. */
  datatype StatePart = StatePart(
    project: Option<string>, goal: Option<string>, tags: map<string, string>, engine: Option<string>)

  datatype Snapshot = Snapshot(
    agentId: string, identity: IdentityPart, state: StatePart, goals: seq<string>, memory: Reference, egos: Reference,
    library: Option<Reference>, policy: string, schema: int, migrations: seq<string>)

  /** What a runtime persists, apart from object identities. */
  datatype View = View(
    charter: Charter, state: AgentState, memory: seq<Record>, egos: map<string, Manifest>,
    library: Option<map<string, Book>>)

  ghost predicate Sound(v: View) {
    && (v.library.Some? ==> LibraryArchive.PortSound(v.library.value))
    && (forall k :: k in v.egos ==> v.egos[k].id == k)
  }

  const SNAPSHOT_SCHEMA := 1

  function MemoryReference(records: seq<Record>): Reference {
    Reference("memory", "memory://authoritative", Some(OfMemory(MemoryArchive.ToRaws(records))),
              Some(MemoryArchive.MEMORY_SCHEMA))
  }

  function EgoReference(egos: map<string, Manifest>): Reference {
    Reference("ego_registry", "ego://registry", Some(OfEgos(Registered(egos))), Some(1))
  }

  ghost function LibraryReference(library: Option<map<string, Book>>): Option<Reference>
    requires library.Some? ==> LibraryArchive.PortSound(library.value)
  {
    if library.None? then None
    else Some(Reference("library", "library://authoritative", Some(OfBooks(LibraryArchive.InOrder(library.value))),
                        Some(LibraryArchive.LIBRARY_SCHEMA)))
  }

  predicate Authoritative(r: Option<Reference>) {
    r.Some? && r.value.kind == "library" && r.value.ref == "library://authoritative"
  }

  function StateOf(s: AgentState): StatePart {
    StatePart(s.project, s.goal, s.tags, None)
  }

  function GoalsOf(goal: Option<string>): seq<string> {
    if goal.Some? && !Blank(goal.value) then [goal.value] else []
  }

  /** `build_identity_snapshot` with a given library reference. */
  function BuildWith(v: View, policy: string, library: Option<Reference>): Snapshot {
    Snapshot(v.charter.agentId, IdentityPart(v.charter.agentId, v.charter.name, v.charter.principles), StateOf(v.state),
             GoalsOf(v.state.goal),
             MemoryReference(v.memory), EgoReference(v.egos), library, policy, SNAPSHOT_SCHEMA, [])
  }

  ghost function Build(v: View, policy: string): Snapshot
    requires Sound(v)
  {
    BuildWith(v, policy, LibraryReference(v.library))
  }

  /** `validate_identity_snapshot` reports no error. */
  predicate ValidSnapshot(s: Snapshot) {
    && s.schema == SNAPSHOT_SCHEMA && s.identity.agentId == s.agentId && s.state.engine.None?
    && (s.state.goal.None? ==> s.goals == [])
    && (s.state.goal.Some? ==> s.state.goal.value in s.goals)
  }

  /** A built snapshot is valid exactly when its goal is absent or not blank. */
  lemma BuiltValidIff(v: View, policy: string, library: Option<Reference>)
    ensures ValidSnapshot(BuildWith(v, policy, library)) <==> v.state.goal.None? || !Blank(v.state.goal.value)
  {
  }

  /** `validate_snapshot_against_runtime` reports no error. */
  ghost predicate Matches(s: Snapshot, v: View)
    requires Sound(v)
  {
    && ValidSnapshot(s) && v.charter.agentId == s.agentId
    && s.memory.digest == MemoryReference(v.memory).digest
    && s.egos.digest == EgoReference(v.egos).digest
    && (Authoritative(s.library) ==> LibraryReference(v.library) == s.library)
    && StateOf(v.state) == s.state
  }

  // ----- restoring -----

  datatype Needs = Needs(memory: bool, egos: bool, library: bool, state: bool)

  datatype Artifacts = Artifacts(
    memory: Option<MemoryArchive.Archive>, manifests: Option<seq<Manifest>>, library: Option<LibraryArchive.Archive>)

  datatype RestoreError =
    | Blocked | EngineRequired | MemoryArtifactRequired | MemoryFactoryRequired | MemoryRejected | MemoryStageNotEmpty
    | EgoArtifactRequired | EgosRejected | LibraryArtifactRequired | LibraryFactoryRequired | LibraryRejected
    | LibraryStageNotEmpty
    | PostRestoreMismatch

  /** `plan_restore` finds no blocker. */
  predicate Unblocked(s: Snapshot, v: View, engines: set<string>, target: string) {
    ValidSnapshot(s) && target in engines && v.charter.agentId == s.agentId
  }

  ghost function NeedsOf(s: Snapshot, v: View): Needs
    requires Sound(v)
  {
    Needs(MemoryReference(v.memory) != s.memory, EgoReference(v.egos) != s.egos,
          Authoritative(s.library) && LibraryReference(v.library) != s.library, StateOf(v.state) != s.state)
  }

  /** The staged memory: the archive's records, if the archive and the staged store both carry the snapshot's digest. */
  function StagedMemory(s: Snapshot, a: Artifacts, stage: Option<seq<Record>>): Result<seq<Record>, RestoreError> {
    if a.memory.None? then Err(MemoryArtifactRequired)
    else if stage.None? then Err(MemoryFactoryRequired)
    else
      match MemoryArchive.Validated(a.memory.value)
      case Err(_) => Err(MemoryRejected)
      case Ok(records) =>
        if s.memory.digest != Some(OfMemory(a.memory.value.records)) then Err(MemoryRejected)
        else if stage.value != [] then Err(MemoryStageNotEmpty)
        else if s.memory.digest != MemoryReference(records).digest then Err(MemoryRejected)
        else Ok(records)
  }

  /** Registering manifests one by one; a repeated id is an error. */
  function RegisteredAll(manifests: seq<Manifest>): Option<map<string, Manifest>> {
    if manifests == [] then Some(map[])
    else
      var front, last := RegisteredAll(manifests[..|manifests| - 1]), manifests[|manifests| - 1];
      if front.None? || last.id in front.value then None else Some(front.value[last.id := last])
  }

  function StagedEgos(s: Snapshot, a: Artifacts): Result<map<string, Manifest>, RestoreError> {
    if a.manifests.None? then Err(EgoArtifactRequired)
    else
      var egos := RegisteredAll(a.manifests.value);
      if egos.None? || s.egos.digest != EgoReference(egos.value).digest then Err(EgosRejected) else Ok(egos.value)
  }

  ghost function StagedLibrary(
    s: Snapshot, a: Artifacts, stage: Option<map<string, Book>>): Result<map<string, Book>, RestoreError>
    requires s.library.Some?
  {
    if a.library.None? then Err(LibraryArtifactRequired)
    else if stage.None? then Err(LibraryFactoryRequired)
    else
      match LibraryArchive.Validated(a.library.value)
      case Err(_) => Err(LibraryRejected)
      case Ok(books) =>
        if s.library.value.digest != Some(OfBooks(a.library.value.books)) then Err(LibraryRejected)
        else if stage.value != map[] then Err(LibraryStageNotEmpty)
        else
          LibraryArchive.ValidatedStages(a.library.value);
          var staged := LibraryArchive.PutAll(map[], books);
          if s.library.value.digest != Some(OfBooks(LibraryArchive.InOrder(staged))) then Err(LibraryRejected)
          else Ok(staged)
  }

  /** The view with the snapshot's identity and state, and the staged stores where they are needed. */
  ghost function Staged(
    s: Snapshot, v: View, target: string, a: Artifacts, memory: Option<seq<Record>>,
    library: Option<map<string, Book>>): Result<View, RestoreError>
    requires Sound(v)
  {
    var needs := NeedsOf(s, v);
    var staged := if needs.memory then StagedMemory(s, a, memory) else Ok(v.memory);
    if staged.Err? then Err(staged.error)
    else
      var egos := if needs.egos then StagedEgos(s, a) else Ok(v.egos);
      if egos.Err? then Err(egos.error)
      else
        var books := if needs.library then StagedLibrary(s, a, library) else Ok(map[]);
        if books.Err? then Err(books.error)
        else
          Ok(View(Charter(s.agentId, s.identity.name, s.identity.principles),
                  AgentState(target, s.state.project, s.state.goal, s.state.tags),
                  staged.value, egos.value, if needs.library then Some(books.value) else v.library))
  }

  lemma {:induction false} RegisteredKeyed(manifests: seq<Manifest>)
    ensures RegisteredAll(manifests).Some? ==>
              forall k :: k in RegisteredAll(manifests).value ==> RegisteredAll(manifests).value[k].id == k
  {
    if manifests != [] {
      RegisteredKeyed(manifests[..|manifests| - 1]);
    }
  }

  lemma StagedEgosKeyed(s: Snapshot, a: Artifacts)
    ensures StagedEgos(s, a).Ok? ==> forall k :: k in StagedEgos(s, a).value ==> StagedEgos(s, a).value[k].id == k
  {
    hide Registered;
    if a.manifests.Some? {
      RegisteredKeyed(a.manifests.value);
    }
  }

  lemma StagedLibrarySound(s: Snapshot, a: Artifacts, stage: Option<map<string, Book>>)
    requires s.library.Some?
    ensures StagedLibrary(s, a, stage).Ok? ==> LibraryArchive.PortSound(StagedLibrary(s, a, stage).value)
  {
    hide LibraryArchive.PortSound, LibraryArchive.PutAll, LibraryArchive.Parsed, LibraryArchive.InOrder;
    if StagedLibrary(s, a, stage).Ok? {
      LibraryArchive.ValidatedStages(a.library.value);
    }
  }

  lemma StagedSound(
    s: Snapshot, v: View, target: string, a: Artifacts, memory: Option<seq<Record>>, library: Option<map<string, Book>>)
    requires Sound(v) && Staged(s, v, target, a, memory, library).Ok?
    ensures Sound(Staged(s, v, target, a, memory, library).value)
  {
    hide StagedLibrary, StagedEgos, StagedMemory, LibraryArchive.PortSound;
    StagedEgosKeyed(s, a);
    if NeedsOf(s, v).library {
      StagedLibrarySound(s, a, library);
    }
  }

  /** The fingerprint leaves out capture metadata; every field of `Snapshot` is part of it. */
  ghost function Outcome(
    s: Snapshot, v: View, engines: set<string>, target: string, a: Artifacts, memory: Option<seq<Record>>,
    library: Option<map<string, Book>>): Result<View, RestoreError>
    requires Sound(v)
  {
    if !Unblocked(s, v, engines, target) then Err(Blocked)
    else if Blank(target) then Err(EngineRequired)
    else
      match Staged(s, v, target, a, memory, library)
      case Err(e) => Err(e)
      case Ok(staged) =>
        StagedSound(s, v, target, a, memory, library);
        if Matches(s, staged) && BuildWith(staged, s.policy, s.library) == s then Ok(staged)
        else Err(PostRestoreMismatch)
  }

  /** The references a runtime of this version builds, up to the digests. */
  predicate NativeReferences(s: Snapshot) {
    && s.memory == Reference("memory", "memory://authoritative", s.memory.digest, Some(MemoryArchive.MEMORY_SCHEMA))
    && s.egos == Reference("ego_registry", "ego://registry", s.egos.digest, Some(1))
    && (Authoritative(s.library) ==> s.library.value.schema == Some(LibraryArchive.LIBRARY_SCHEMA))
  }

  /** Whatever was staged or kept has the snapshot's digests, identity and state. */
  lemma StagedDigests(
    s: Snapshot, v: View, target: string, a: Artifacts, memory: Option<seq<Record>>, library: Option<map<string, Book>>)
    requires Sound(v) && Staged(s, v, target, a, memory, library).Ok?
    ensures Sound(Staged(s, v, target, a, memory, library).value)
    ensures var staged := Staged(s, v, target, a, memory, library).value;
            && staged.charter == Charter(s.agentId, s.identity.name, s.identity.principles)
            && staged.state == AgentState(target, s.state.project, s.state.goal, s.state.tags)
            && MemoryReference(staged.memory).digest == s.memory.digest
            && EgoReference(staged.egos).digest == s.egos.digest
            && (Authoritative(s.library) ==>
                  && staged.library.Some?
                  && LibraryReference(staged.library).value.digest == s.library.value.digest)
  {
    hide LibraryArchive.InOrder, LibraryArchive.PortSound, MemoryArchive.ToRaws, LibraryArchive.Parsed;
    hide MemoryArchive.Parsed, Registered, Blank;
    StagedSound(s, v, target, a, memory, library);
  }

  /** Once staging succeeds the restore fails exactly on goals, migrations or foreign references. */
  lemma MismatchIff(
    s: Snapshot, v: View, engines: set<string>, target: string, a: Artifacts, memory: Option<seq<Record>>,
    library: Option<map<string, Book>>)
    requires Sound(v) && Unblocked(s, v, engines, target) && !Blank(target)
    requires Staged(s, v, target, a, memory, library).Ok?
    ensures Outcome(s, v, engines, target, a, memory, library).Ok? <==>
            NativeReferences(s) && s.migrations == [] && s.goals == GoalsOf(s.state.goal)
    ensures Outcome(s, v, engines, target, a, memory, library).Err? ==>
              Outcome(s, v, engines, target, a, memory, library) == Err(PostRestoreMismatch)
  {
    hide LibraryArchive.InOrder, LibraryArchive.PortSound, MemoryArchive.ToRaws, LibraryArchive.Parsed;
    hide MemoryArchive.Parsed, Registered, Blank, Staged;
    StagedDigests(s, v, target, a, memory, library);
  }
}
