/** What holds of the memory store and its projection over whole runs of writes under a clock. */
module MemoryRuns {
  import opened Outcomes
  import opened Text
  import opened Sorting
  import opened Listing
  import opened MemoryFusion
  import opened MemorySpec
  import opened MemoryPorts

  /** The store, the projection, and when each record last reached the projection. */
  datatype State = State(store: seq<Record>, index: Index, seen: map<string, int>)

  datatype Timed = Timed(op: Op, at: int)

  function Step(s: State, lex: Lexer, t: Timed): State {
    match Write(s.store, t.op, t.at)
    case Err(_) => s
    case Ok((store, None)) => State(store, s.index, s.seen)
    case Ok((store, Some(r))) => State(store, Upserted(s.index, lex, r, t.at), s.seen[r.id := t.at])
  }

  function Run(s: State, lex: Lexer, ops: seq<Timed>): State
    decreases |ops|
  {
    if ops == [] then s else Run(Step(s, lex, ops[0]), lex, ops[1..])
  }

  /** A committed record gets an id nobody has. */
  predicate Fresh(store: seq<Record>, op: Op) {
    op.Commit? ==> Locate(store, op.r.id).None?
  }

  ghost predicate FreshRun(s: State, lex: Lexer, ops: seq<Timed>)
    decreases |ops|
  {
    ops == [] || (Fresh(s.store, ops[0].op) && FreshRun(Step(s, lex, ops[0]), lex, ops[1..]))
  }

  /** The projection's view of a record is right as of a time. */
  ghost predicate Tracks(lex: Lexer, index: Index, r: Record, at: int)
    requires IndexSound(index)
  {
    && (r.id in index.terms <==> Kept(r, at))
    && (r.id in index.terms ==>
          && index.terms[r.id] == lex(r.content)
          && index.records[r.id].confidence == r.confidence && index.records[r.id].importance == r.importance)
  }

  ghost predicate OnlyStored(store: seq<Record>, index: Index) {
    forall id :: id in index.terms ==> exists i :: 0 <= i < |store| && store[i].id == id
  }

  /** Every record is in the projection as it was when it was last written. */
  ghost predicate Sound(s: State, lex: Lexer) {
    && UniqueIds(s.store) && IndexSound(s.index) && OnlyStored(s.store, s.index)
    && (forall i ::
         0 <= i < |s.store| ==> s.store[i].id in s.seen && Tracks(lex, s.index, s.store[i], s.seen[s.store[i].id]))
  }

  lemma UpsertTracks(lex: Lexer, index: Index, r: Record, at: int, other: Record, seen: int)
    requires IndexSound(index)
    ensures IndexSound(Upserted(index, lex, r, at)) && Tracks(lex, Upserted(index, lex, r, at), r, at)
    ensures other.id != r.id && Tracks(lex, index, other, seen) ==>
              Tracks(lex, Upserted(index, lex, r, at), other, seen)
  {
  }

  /** Writing one record in its place, or a new one at the end, keeps the projection sound. */
  lemma PlacedKeepsSound(s: State, lex: Lexer, i: nat, r: Record, at: int)
    requires Sound(s, lex) && i <= |s.store| && (i < |s.store| ==> s.store[i].id == r.id)
    requires i == |s.store| ==> forall j :: 0 <= j < |s.store| ==> s.store[j].id != r.id
    ensures var store := if i < |s.store| then s.store[i := r] else s.store + [r];
            Sound(State(store, Upserted(s.index, lex, r, at), s.seen[r.id := at]), lex)
  {
    hide Tracks, Kept, Upserted;
    var store := if i < |s.store| then s.store[i := r] else s.store + [r];
    var index := Upserted(s.index, lex, r, at);
    UpsertTracks(lex, s.index, r, at, r, at);
    forall j | 0 <= j < |store|
      ensures store[j].id in s.seen[r.id := at] && Tracks(lex, index, store[j], s.seen[r.id := at][store[j].id])
    {
      if j != i {
        assert store[j] == s.store[j] && store[j].id != r.id;
        UpsertTracks(lex, s.index, r, at, store[j], s.seen[store[j].id]);
      }
    }
    assert OnlyStored(store, index) by {
      UpsertStored(s.store, s.index, lex, r, at, i);
    }
  }

  lemma UpsertStored(store: seq<Record>, index: Index, lex: Lexer, r: Record, at: int, i: nat)
    requires OnlyStored(store, index) && i <= |store| && (i < |store| ==> store[i].id == r.id)
    ensures OnlyStored(if i < |store| then store[i := r] else store + [r], Upserted(index, lex, r, at))
  {
    var next := if i < |store| then store[i := r] else store + [r];
    forall id | id in Upserted(index, lex, r, at).terms
      ensures exists j :: 0 <= j < |next| && next[j].id == id
    {
      if id == r.id {
        assert next[i].id == id;
      } else {
        assert id in index.terms;
        var j :| 0 <= j < |store| && store[j].id == id;
        assert next[j].id == id;
      }
    }
  }

  lemma TouchedTracks(lex: Lexer, index: Index, r: Record, op: Op, at: int, seen: int)
    requires IndexSound(index) && (op.MarkRetrieved? || op.RecordOutcome?)
    ensures Touched(r, op, at).id == r.id &&
              (Tracks(lex, index, Touched(r, op, at), seen) <==> Tracks(lex, index, r, seen))
  {
  }

  /** Marks and outcomes do not reach the projection, and change nothing it depends on. */
  lemma TouchKeepsSound(s: State, lex: Lexer, op: Op, at: int)
    requires Sound(s, lex) && (op.MarkRetrieved? || op.RecordOutcome?)
    ensures Sound(s.(store := TouchedAll(s.store, op, at)), lex)
  {
    hide Tracks, Touched;
    var store := TouchedAll(s.store, op, at);
    forall j | 0 <= j < |store|
      ensures store[j].id == s.store[j].id && store[j].id in s.seen &&
                Tracks(lex, s.index, store[j], s.seen[store[j].id])
    {
      TouchedTracks(lex, s.index, s.store[j], op, at, s.seen[s.store[j].id]);
    }
    forall id | id in s.index.terms
      ensures exists j :: 0 <= j < |store| && store[j].id == id
    {
      var j :| 0 <= j < |s.store| && s.store[j].id == id;
      assert store[j].id == id;
    }
  }

  lemma ChangedKeepsId(r: Record, op: Op, at: int)
    requires op.Invalidate? || op.Revalidate? || op.Supersede?
    ensures Changed(r, op, at).Ok? ==> Changed(r, op, at).value.id == r.id
  {
  }

  lemma StepKeepsSound(s: State, lex: Lexer, t: Timed)
    requires Sound(s, lex) && Fresh(s.store, t.op)
    ensures Sound(Step(s, lex, t), lex)
  {
    hide Tracks, Kept, Upserted, Changed, Sound, TouchedAll;
    match t.op
    case Commit(r) => PlacedKeepsSound(s, lex, |s.store|, r, t.at);
    case Import(r, overwrite) =>
      var i := Locate(s.store, r.id);
      if i.None? {
        PlacedKeepsSound(s, lex, |s.store|, r, t.at);
      } else if overwrite {
        PlacedKeepsSound(s, lex, i.value, r, t.at);
      }
    case MarkRetrieved(_) => TouchKeepsSound(s, lex, t.op, t.at);
    case RecordOutcome(_, _) => TouchKeepsSound(s, lex, t.op, t.at);
    case Invalidate(id) => WriteOneKeepsSound(s, lex, id, t);
    case Revalidate(id) => WriteOneKeepsSound(s, lex, id, t);
    case Supersede(id, _) => WriteOneKeepsSound(s, lex, id, t);
  }

  lemma WriteOneKeepsSound(s: State, lex: Lexer, id: string, t: Timed)
    requires Sound(s, lex) && (t.op.Invalidate? || t.op.Revalidate? || t.op.Supersede?) && t.op.id == id
    ensures Sound(Step(s, lex, t), lex)
  {
    hide Tracks, Kept, Upserted, Changed, Sound;
    var i := Locate(s.store, id);
    if i.Some? {
      var r := Changed(s.store[i.value], t.op, t.at);
      ChangedKeepsId(s.store[i.value], t.op, t.at);
      if r.Ok? {
        PlacedKeepsSound(s, lex, i.value, r.value, t.at);
      }
    }
  }

  lemma {:induction false} RunKeepsSound(s: State, lex: Lexer, ops: seq<Timed>)
    requires Sound(s, lex) && FreshRun(s, lex, ops)
    ensures Sound(Run(s, lex, ops), lex)
    decreases |ops|
  {
    hide Sound, Step;
    if ops != [] {
      StepKeepsSound(s, lex, ops[0]);
      RunKeepsSound(Step(s, lex, ops[0]), lex, ops[1..]);
    }
  }

  // ----- against a rebuilt projection -----

  lemma {:induction false} RebuiltTracks(lex: Lexer, store: seq<Record>, at: int)
    requires UniqueIds(store)
    ensures IndexSound(Rebuilt(lex, store, at)) && OnlyStored(store, Rebuilt(lex, store, at))
    ensures forall i :: 0 <= i < |store| ==> Tracks(lex, Rebuilt(lex, store, at), store[i], at)
  {
    if store != [] {
      var front, last := store[..|store| - 1], store[|store| - 1];
      RebuiltTracks(lex, front, at);
      var index := Rebuilt(lex, store, at);
      assert last.id !in Rebuilt(lex, front, at).terms;
      forall i | 0 <= i < |store|
        ensures Tracks(lex, index, store[i], at)
      {
        if i < |front| {
          assert store[i] == front[i] && store[i].id != last.id;
        }
      }
      forall id | id in index.terms
        ensures exists i :: 0 <= i < |store| && store[i].id == id
      {
        if id == last.id {
          assert store[|store| - 1].id == id;
        } else {
          var i :| 0 <= i < |front| && front[i].id == id;
          assert store[i].id == id;
        }
      }
    }
  }

  /** A fresh projection is sound when it is rebuilt. */
  lemma RebuiltSound(lex: Lexer, store: seq<Record>, at: int)
    requires UniqueIds(store)
    ensures Sound(State(store, Rebuilt(lex, store, at), map i | 0 <= i < |store| :: store[i].id := at), lex)
  {
    hide Tracks, Kept, Rebuilt;
    RebuiltTracks(lex, store, at);
    var seen := map i | 0 <= i < |store| :: store[i].id := at;
    forall i | 0 <= i < |store|
      ensures store[i].id in seen && seen[store[i].id] == at
    {
    }
  }

  /** No record's window opened or closed since the projection last saw it. */
  ghost predicate Settled(s: State, now: int) {
    forall i ::
      0 <= i < |s.store| && s.store[i].id in s.seen && DurableKind(s.store[i].kind) && !s.store[i].invalidated ==>
      Open(s.store[i], s.seen[s.store[i].id]) == Open(s.store[i], now)
  }

  /** Both projections track every record, each as of the time it saw the record. */
  ghost predicate BothTrack(s: State, lex: Lexer, rebuilt: Index, now: int)
    requires IndexSound(s.index) && IndexSound(rebuilt)
  {
    forall i ::
      0 <= i < |s.store| ==>
      && s.store[i].id in s.seen && Tracks(lex, s.index, s.store[i], s.seen[s.store[i].id])
      && Tracks(lex, rebuilt, s.store[i], now)
  }

  lemma RebuiltBothTrack(s: State, lex: Lexer, now: int)
    requires Sound(s, lex)
    ensures var rebuilt := Rebuilt(lex, s.store, now);
            IndexSound(s.index) && IndexSound(rebuilt) && BothTrack(s, lex, rebuilt, now) &&
            OnlyStored(s.store, s.index) && OnlyStored(s.store, rebuilt)
  {
    hide Tracks, Rebuilt, IndexSound, OnlyStored;
    RebuiltTracks(lex, s.store, now);
  }

  lemma AlikeIsSettled(s: State, lex: Lexer, rebuilt: Index, now: int)
    requires IndexSound(s.index) && IndexSound(rebuilt)
    requires BothTrack(s, lex, rebuilt, now) && SameAnswers(s.index, rebuilt)
    ensures Settled(s, now)
  {
    hide Open, DurableKind;
    forall i | 0 <= i < |s.store| && DurableKind(s.store[i].kind) && !s.store[i].invalidated
      ensures Open(s.store[i], s.seen[s.store[i].id]) == Open(s.store[i], now)
    {
      assert s.store[i].id in s.index.terms <==> s.store[i].id in rebuilt.terms;
    }
  }

  lemma SettledIsAlike(s: State, lex: Lexer, rebuilt: Index, now: int)
    requires IndexSound(s.index) && IndexSound(rebuilt)
    requires BothTrack(s, lex, rebuilt, now) && Settled(s, now)
    requires OnlyStored(s.store, s.index) && OnlyStored(s.store, rebuilt)
    ensures SameAnswers(s.index, rebuilt)
  {
    hide Open, DurableKind, OnlyStored;
    forall id
      ensures id in s.index.terms <==> id in rebuilt.terms
      ensures id in s.index.terms ==> SameEntry(s.index, rebuilt, id)
    {
      if id in s.index.terms || id in rebuilt.terms {
        StoredSomewhere(s.store, s.index, id);
        StoredSomewhere(s.store, rebuilt, id);
        var i :| 0 <= i < |s.store| && s.store[i].id == id;
        assert Kept(s.store[i], s.seen[id]) == Kept(s.store[i], now);
      }
    }
  }

  /** The incremental projection answers as a rebuilt one exactly when every window stayed as it was. */
  lemma AgreesIff(s: State, lex: Lexer, now: int)
    requires Sound(s, lex)
    ensures IndexSound(Rebuilt(lex, s.store, now))
    ensures SameAnswers(s.index, Rebuilt(lex, s.store, now)) <==> Settled(s, now)
  {
    hide *;
    var rebuilt := Rebuilt(lex, s.store, now);
    RebuiltBothTrack(s, lex, now);
    if SameAnswers(s.index, rebuilt) {
      AlikeIsSettled(s, lex, rebuilt, now);
    }
    if Settled(s, now) {
      SettledIsAlike(s, lex, rebuilt, now);
    }
  }

  lemma StoredSomewhere(store: seq<Record>, index: Index, id: string)
    requires OnlyStored(store, index)
    ensures id in index.terms ==> exists i :: 0 <= i < |store| && store[i].id == id
  {
  }

  ghost predicate SameEntry(a: Index, b: Index, id: string)
    requires IndexSound(a) && IndexSound(b)
  {
    id in a.terms && id in b.terms && a.terms[id] == b.terms[id] &&
    a.records[id].confidence == b.records[id].confidence && a.records[id].importance == b.records[id].importance
  }

  /** A store with a projection rebuilt at one time. */
  ghost function Started(lex: Lexer, store: seq<Record>, at: int): State {
    State(store, Rebuilt(lex, store, at), map i | 0 <= i < |store| :: store[i].id := at)
  }

  /**
   * After any run from a rebuilt projection, every search agrees with a projection rebuilt now,
   * while windows are settled.
   */
  lemma IncrementalSearchesAlike(
    lex: Lexer, store: seq<Record>, start: int, ops: seq<Timed>, now: int, query: set<string>)
    requires UniqueIds(store) && FreshRun(Started(lex, store, start), lex, ops)
    requires Settled(Run(Started(lex, store, start), lex, ops), now)
    ensures var s := Run(Started(lex, store, start), lex, ops);
            IndexSound(s.index) && IndexSound(Rebuilt(lex, s.store, now)) &&
            RankingOf(s.index, query) == RankingOf(Rebuilt(lex, s.store, now), query)
  {
    hide Rebuilt, Run, FreshRun, Ranks, SameAnswers, Settled, RankingOf, Tracks, OnlyStored;
    var first := Started(lex, store, start);
    RebuiltSound(lex, store, start);
    RunKeepsSound(first, lex, ops);
    var s := Run(first, lex, ops);
    AgreesIff(s, lex, now);
    RankingUnique(s.index, Rebuilt(lex, s.store, now), query, RankingOf(s.index, query),
                  RankingOf(Rebuilt(lex, s.store, now), query));
  }

  /** A window that changed by itself shows in some search: the one for the record's own terms. */
  lemma UnsettledShows(s: State, lex: Lexer, now: int, i: nat)
    requires Sound(s, lex) && i < |s.store| && lex(s.store[i].content) != {}
    requires Kept(s.store[i], s.seen[s.store[i].id]) != Kept(s.store[i], now)
    ensures IndexSound(Rebuilt(lex, s.store, now))
    ensures RankingOf(s.index, lex(s.store[i].content)) !=
            RankingOf(Rebuilt(lex, s.store, now), lex(s.store[i].content))
  {
    hide Kept, Rebuilt, Sorted, Before, RankingOf;
    var r, rebuilt := s.store[i], Rebuilt(lex, s.store, now);
    var terms := lex(r.content);
    RebuiltTracks(lex, s.store, now);
    assert Tracks(lex, s.index, r, s.seen[r.id]) && Tracks(lex, rebuilt, r, now);
    assert terms * terms == terms;
    assert |terms| > 0;
    var a, b := RankingOf(s.index, terms), RankingOf(rebuilt, terms);
    if r.id in s.index.terms {
      var h := HitOf(s.index, terms, r.id).value;
      assert h.id == r.id && h in a && h !in b;
    } else {
      var h := HitOf(rebuilt, terms, r.id).value;
      assert h.id == r.id && h in b && h !in a;
    }
  }

  // ----- superseded records -----

  /** Superseded, with a window that has closed. */
  predicate Ended(r: Record, at: int) {
    r.supersededBy.Some? && r.validUntil.Some? && r.validUntil.value <= at
  }

  ghost predicate EndedIn(store: seq<Record>, id: string, at: int) {
    exists i :: 0 <= i < |store| && store[i].id == id && Ended(store[i], at)
  }

  /**
   * A supersede that succeeds ends the record, except that it does nothing to a record that already names this
   * successor: an imported one may name it and still be open.
   */
  lemma SupersedeEndsIff(store: seq<Record>, id: string, successor: string, at: int)
    requires UniqueIds(store) && Write(store, Op.Supersede(id, successor), at).Ok?
    ensures var i := Locate(store, id).value;
            EndedIn(Write(store, Op.Supersede(id, successor), at).value.0, id, at) <==>
            store[i].supersededBy != Some(successor) || Ended(store[i], at)
  {
    var i := Locate(store, id).value;
    var next := Write(store, Op.Supersede(id, successor), at).value.0;
    assert next[i].id == id && forall j :: 0 <= j < |next| && j != i ==> next[j] == store[j] && next[j].id != id;
  }

  predicate Overwrites(op: Op, id: string) {
    op.Import? && op.overwrite && op.r.id == id
  }

  /** No write but an overwriting import moves a record or reopens it. */
  lemma EndedStaysAt(store: seq<Record>, t: Timed, i: nat, before: int)
    requires UniqueIds(store) && i < |store| && Ended(store[i], before) && before <= t.at
    requires !Overwrites(t.op, store[i].id) && Fresh(store, t.op) && Write(store, t.op, t.at).Ok?
    ensures var next := Write(store, t.op, t.at).value.0;
            i < |next| && next[i].id == store[i].id && Ended(next[i], t.at)
  {
    if t.op.MarkRetrieved? || t.op.RecordOutcome? {
      assert Write(store, t.op, t.at).value.0[i] == Touched(store[i], t.op, t.at);
    }
  }

  lemma EndedStaysAfter(store: seq<Record>, t: Timed, id: string, before: int)
    requires UniqueIds(store) && EndedIn(store, id, before) && before <= t.at
    requires !Overwrites(t.op, id) && Fresh(store, t.op)
    ensures Write(store, t.op, t.at).Ok? ==> EndedIn(Write(store, t.op, t.at).value.0, id, t.at)
    ensures EndedIn(store, id, t.at)
  {
    var i :| 0 <= i < |store| && store[i].id == id && Ended(store[i], before);
    assert Ended(store[i], t.at);
    if Write(store, t.op, t.at).Ok? {
      hide Write, Fresh, UniqueIds;
      EndedStaysAt(store, t, i, before);
    }
  }

  /** The clock of a run never goes back. */
  predicate Monotone(ops: seq<Timed>, from: int)
    decreases |ops|
  {
    ops == [] || (from <= ops[0].at && Monotone(ops[1..], ops[0].at))
  }

  function LastTime(ops: seq<Timed>, from: int): int {
    if ops == [] then from else ops[|ops| - 1].at
  }

  /** However it is revalidated afterwards, an ended record is never active again, unless an import overwrites it. */
  lemma {:induction false} EndedForever(s: State, lex: Lexer, ops: seq<Timed>, id: string, from: int)
    requires Sound(s, lex) && FreshRun(s, lex, ops) && EndedIn(s.store, id, from) && Monotone(ops, from)
    requires forall t :: t in ops ==> !Overwrites(t.op, id)
    ensures EndedIn(Run(s, lex, ops).store, id, LastTime(ops, from))
    decreases |ops|
  {
    hide Tracks, IndexSound, OnlyStored, EndedIn, Step, Write;
    if ops != [] {
      EndedStep(s, lex, ops[0], id, from);
      StepKeepsSound(s, lex, ops[0]);
      EndedForever(Step(s, lex, ops[0]), lex, ops[1..], id, ops[0].at);
    }
  }

  lemma EndedStep(s: State, lex: Lexer, t: Timed, id: string, from: int)
    requires UniqueIds(s.store) && EndedIn(s.store, id, from) && from <= t.at && !Overwrites(t.op, id) &&
               Fresh(s.store, t.op)
    ensures EndedIn(Step(s, lex, t).store, id, t.at)
  {
    hide EndedIn, Write;
    EndedStaysAfter(s.store, t, id, from);
  }

  /** So no later search returns it. */
  lemma EndedNeverFound(
    s: State, lex: Lexer, ops: seq<Timed>, id: string, from: int, now: int, p: Policy, answers: seq<Answer>,
    limit: nat)
    requires Sound(s, lex) && FreshRun(s, lex, ops) && EndedIn(s.store, id, from) && Monotone(ops, from)
    requires forall t :: t in ops ==> !Overwrites(t.op, id)
    requires LastTime(ops, from) <= now
    ensures id !in Selected(p, Run(s, lex, ops).store, answers, limit, now)
  {
    hide Sound, Selected, Locate, Run, FreshRun, Monotone;
    EndedForever(s, lex, ops, id, from);
    var store := Run(s, lex, ops).store;
    SelectedActive(p, store, answers, limit, now);
    RunKeepsSound(s, lex, ops);
    SoundUnique(Run(s, lex, ops), lex);
    var i :| 0 <= i < |store| && store[i].id == id && Ended(store[i], LastTime(ops, from));
    assert Locate(store, id) == Some(i);
    assert !Active(store[i], now);
  }

  lemma SoundUnique(s: State, lex: Lexer)
    requires Sound(s, lex)
    ensures UniqueIds(s.store)
  {
  }
}
