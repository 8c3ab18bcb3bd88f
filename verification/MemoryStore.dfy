/** Memory records, the authoritative store and the lexical projection as functions of the clock (memory/). */
module MemorySpec {
  import opened Outcomes
  import opened Text
  import opened Sorting
  import opened Listing

  /** Times are clock readings; a `validFrom` of zero is no bound. */
  datatype Record = Record(
    id: string, kind: string, content: string, source: string, confidence: real, metadata: map<string, string>,
    sourceId: Option<string>, sourceType: string, evidence: seq<string>, trust: string, importance: real,
    writer: string, validation: string, createdAt: int, updatedAt: int, validFrom: int, validUntil: Option<int>,
    supersedes: Option<string>, supersededBy: Option<string>, lastUsedAt: Option<int>, successes: nat, failures: nat,
    schema: int, invalidated: bool)

  /** The validity window alone. */
  predicate Open(r: Record, at: int) {
    (r.validFrom == 0 || r.validFrom <= at) && (r.validUntil.None? || at < r.validUntil.value)
  }

  predicate Active(r: Record, at: int) {
    !r.invalidated && Open(r, at)
  }

  predicate DurableKind(kind: string) {
    kind == "episodic" || kind == "semantic" || kind == "procedural"
  }

  /** What the projection keeps: not invalidated and durable at this time. */
  predicate Kept(r: Record, at: int) {
    DurableKind(r.kind) && Active(r, at)
  }

  // ----- the authoritative list -----

  datatype MemoryError = NotFound | AlreadyExists | WindowInverted

  predicate UniqueIds(store: seq<Record>) {
    forall i, j :: 0 <= i < j < |store| ==> store[i].id != store[j].id
  }

  function Locate(store: seq<Record>, id: string): (r: Option<nat>)
    ensures r.Some? ==>
              r.value < |store| && store[r.value].id == id && forall i :: 0 <= i < r.value ==> store[i].id != id
    ensures r.None? ==> forall i :: 0 <= i < |store| ==> store[i].id != id
  {
    if store == [] then None
    else if store[0].id == id then Some(0)
    else
      match Locate(store[1..], id)
      case None =>
        assert forall i :: 1 <= i < |store| ==> store[i] == store[1..][i - 1];
        None
      case Some(i) =>
        assert forall j :: 1 <= j < |store| ==> store[j] == store[1..][j - 1];
        Some(i + 1)
  }

  datatype Op =
    | Commit(r: Record)
    | Import(r: Record, overwrite: bool)
    | Invalidate(id: string)
    | Revalidate(id: string)
    | Supersede(id: string, successor: string)
    | MarkRetrieved(ids: set<string>)
    | RecordOutcome(ids: set<string>, success: bool)

  /** The record an invalidate, revalidate or supersede leaves. */
  function Changed(r: Record, op: Op, at: int): Result<Record, MemoryError>
    requires op.Invalidate? || op.Revalidate? || op.Supersede?
  {
    match op
    case Invalidate(_) =>
      Ok(if r.invalidated then r else r.(invalidated := true, validation := "invalidated", updatedAt := at))
    case Revalidate(_) =>
      Ok(if !r.invalidated then r else r.(invalidated := false, validation := "committed", updatedAt := at))
    case Supersede(_, successor) =>
      if r.supersededBy == Some(successor) then Ok(r)
      else if at < r.validFrom then Err(WindowInverted)
      else Ok(r.(invalidated := true, validation := "superseded", updatedAt := at, validUntil := Some(at),
                 supersededBy := Some(successor)))
  }

  function Touched(r: Record, op: Op, at: int): Record
    requires op.MarkRetrieved? || op.RecordOutcome?
  {
    match op
    case MarkRetrieved(ids) => if r.id in ids then r.(lastUsedAt := Some(at)) else r
    case RecordOutcome(ids, success) =>
      if r.id !in ids then r
      else if success then r.(successes := r.successes + 1)
      else r.(failures := r.failures + 1)
  }

  function TouchedAll(store: seq<Record>, op: Op, at: int): (r: seq<Record>)
    requires op.MarkRetrieved? || op.RecordOutcome?
    ensures |r| == |store| && forall i :: 0 <= i < |r| ==> r[i] == Touched(store[i], op, at)
  {
    if store == [] then [] else [Touched(store[0], op, at)] + TouchedAll(store[1..], op, at)
  }

  /** The list after a write, and the record the caller gets, which is also the one the projection sees. */
  function Write(store: seq<Record>, op: Op, at: int): Result<(seq<Record>, Option<Record>), MemoryError> {
    match op
    case Commit(r) => Ok((store + [r], Some(r)))
    case Import(r, overwrite) =>
      var i := Locate(store, r.id);
      if i.None? then Ok((store + [r], Some(r)))
      else if !overwrite then Err(AlreadyExists)
      else Ok((store[i.value := r], Some(r)))
    case Invalidate(id) => WriteOne(store, id, op, at)
    case Revalidate(id) => WriteOne(store, id, op, at)
    case Supersede(id, _) => WriteOne(store, id, op, at)
    case MarkRetrieved(_) => Ok((TouchedAll(store, op, at), None))
    case RecordOutcome(_, _) => Ok((TouchedAll(store, op, at), None))
  }

  function WriteOne(store: seq<Record>, id: string, op: Op, at: int): Result<(seq<Record>, Option<Record>), MemoryError>
    requires op.Invalidate? || op.Revalidate? || op.Supersede?
  {
    match Locate(store, id)
    case None => Err(NotFound)
    case Some(i) =>
      match Changed(store[i], op, at)
      case Err(e) => Err(e)
      case Ok(r) => Ok((store[i := r], Some(r)))
  }

  // ----- the projection -----

  datatype Index = Index(records: map<string, Record>, terms: map<string, set<string>>)

  function Upserted(index: Index, lex: Lexer, r: Record, at: int): Index {
    if Kept(r, at) then Index(index.records[r.id := r], index.terms[r.id := lex(r.content)])
    else Index(index.records - {r.id}, index.terms - {r.id})
  }

  function Rebuilt(lex: Lexer, store: seq<Record>, at: int): Index {
    if store == [] then Index(map[], map[])
    else
      var last, front := store[|store| - 1], Rebuilt(lex, store[..|store| - 1], at);
      if Kept(last, at) then Index(front.records[last.id := last], front.terms[last.id := lex(last.content)]) else front
  }

  datatype Hit = Hit(id: string, score: real)

  /** The score of one record against the query terms, if it shares any. */
  function HitOf(index: Index, query: set<string>, id: string): Option<Hit>
    requires id in index.terms && id in index.records
  {
    var overlap := |query * index.terms[id]|;
    if overlap == 0 then None
    else
      var r := index.records[id];
      Some(Hit(id, overlap as real + overlap as real / (if |query| > 1 then |query| else 1) as real +
               r.confidence * 0.10 + r.importance * 0.05))
  }

  predicate Before(a: Hit, b: Hit) {
    a.score > b.score || (a.score == b.score && AtMost(a.id, b.id))
  }

  ghost predicate IndexSound(index: Index) {
    index.records.Keys == index.terms.Keys
  }

  function HitsOf(index: Index, query: set<string>, ids: seq<string>): seq<Hit>
    requires IndexSound(index) && forall id :: id in ids ==> id in index.terms
  {
    if ids == [] then []
    else
      var hit := HitOf(index, query, ids[|ids| - 1]);
      HitsOf(index, query, ids[..|ids| - 1]) + (if hit.Some? then [hit.value] else [])
  }

  /** The hits of a search, best first: sorted, and exactly those of the indexed records. */
  ghost predicate Ranks(index: Index, query: set<string>, hits: seq<Hit>)
    requires IndexSound(index)
  {
    && Sorted(hits, Before) && NoRepeats(hits)
    && (forall h :: h in hits <==> h.id in index.terms && HitOf(index, query, h.id) == Some(h))
  }

  /** Two projections that answer every query alike. */
  ghost predicate SameAnswers(a: Index, b: Index)
    requires IndexSound(a) && IndexSound(b)
  {
    && a.terms == b.terms
    && (forall id ::
         id in a.records ==>
         a.records[id].confidence == b.records[id].confidence && a.records[id].importance == b.records[id].importance)
  }

  lemma BeforeOrders(hits: seq<Hit>)
    ensures TotalOn(hits, Before) && AntisymmetricOn(hits, Before)
  {
    forall x: Hit, y: Hit
      ensures Before(x, y) || Before(y, x)
      ensures Before(x, y) && Before(y, x) ==> x == y
    {
      AtMostTotal(x.id, y.id);
      if AtMost(x.id, y.id) && AtMost(y.id, x.id) {
        AtMostAntisymmetric(x.id, y.id);
      }
    }
    forall x: Hit, y: Hit, z: Hit | Before(x, y) && Before(y, z)
      ensures Before(x, z)
    {
      if AtMost(x.id, y.id) && AtMost(y.id, z.id) {
        AtMostTransitive(x.id, y.id, z.id);
      }
    }
  }

  /** There is one ranking, and projections with the same answers have the same one. */
  lemma RankingUnique(a: Index, b: Index, query: set<string>, x: seq<Hit>, y: seq<Hit>)
    requires IndexSound(a) && IndexSound(b) && SameAnswers(a, b)
    requires Ranks(a, query, x) && Ranks(b, query, y)
    ensures x == y
  {
    hide Before, Sorted;
    forall h
      ensures h in x <==> h in y
    {
      if h.id in a.terms {
        assert HitOf(a, query, h.id) == HitOf(b, query, h.id);
      }
    }
    SameElementsSameBag(x, y);
    BeforeOrders(x);
    SortedUnique(x, y, Before);
  }

  lemma {:induction false} HitsOfExactly(index: Index, query: set<string>, ids: seq<string>)
    requires IndexSound(index) && NoRepeats(ids) && forall id :: id in ids ==> id in index.terms
    ensures NoRepeats(HitsOf(index, query, ids))
    ensures forall h :: h in HitsOf(index, query, ids) <==> h.id in ids && HitOf(index, query, h.id) == Some(h)
  {
    if ids != [] {
      var front, last := ids[..|ids| - 1], ids[|ids| - 1];
      assert ids == front + [last];
      HitsOfExactly(index, query, front);
      assert last !in front;
    }
  }

  lemma RankingMade(index: Index, query: set<string>, ids: seq<string>, sorted: seq<Hit>)
    requires IndexSound(index) && NoRepeats(ids) && forall id :: id in ids <==> id in index.terms
    requires sorted == Sort(HitsOf(index, query, ids), Before)
    ensures Ranks(index, query, sorted)
  {
    hide Before, HitOf;
    var hits := HitsOf(index, query, ids);
    HitsOfExactly(index, query, ids);
    BeforeOrders(hits);
    SortSorted(hits, Before);
    SortedNoRepeats(hits, Before);
  }

  /** The one ranking of the indexed records for a query. */
  ghost function RankingOf(index: Index, query: set<string>): (r: seq<Hit>)
    requires IndexSound(index)
    ensures Ranks(index, query, r)
  {
    var ids := Enumerated(index.terms.Keys);
    SetHasNoRepeats(ids, index.terms.Keys);
    RankingMade(index, query, ids, Sort(HitsOf(index, query, ids), Before));
    Sort(HitsOf(index, query, ids), Before)
  }
}

/** The three classes over the clocked functions (memory/in_memory.py, memory/projection.py, memory/projected.py). */
module MemoryPorts {
  import opened Outcomes
  import opened Sequences
  import opened Text
  import opened Sorting
  import opened Listing
  import opened MemoryFusion
  import opened MemorySpec

  class InMemoryMemoryPort {
    var records: seq<Record>

    constructor ()
      ensures records == []
    {
      records := [];
    }

    /** A new record; its id is fresh. */
    method Commit(r: Record, at: int)
      modifies this
      ensures Write(old(records), Op.Commit(r), at) == Ok((records, Some(r)))
    {
      records := records + [r];
    }

    method ImportRecord(r: Record, overwrite: bool, at: int) returns (result: Result<Record, MemoryError>)
      modifies this
      ensures Write(old(records), Import(r, overwrite), at) ==
                match result { case Err(e) => Err(e) case Ok(x) => Ok((records, Some(x))) }
      ensures result.Err? ==> records == old(records)
    {
      for i := 0 to |records|
        invariant records == old(records)
        invariant forall j :: 0 <= j < i ==> records[j].id != r.id
      {
        if records[i].id == r.id {
          if !overwrite {
            return Err(AlreadyExists);
          }
          records := records[i := r];
          return Ok(r);
        }
      }
      records := records + [r];
      return Ok(r);
    }

    method Invalidate(id: string, at: int) returns (result: Result<Record, MemoryError>)
      modifies this
      ensures Write(old(records), Op.Invalidate(id), at) ==
                match result { case Err(e) => Err(e) case Ok(x) => Ok((records, Some(x))) }
      ensures result.Err? ==> records == old(records)
    {
      var i := Locate(records, id);
      if i.None? {
        return Err(NotFound);
      }
      var current := records[i.value];
      assert records[i.value := current] == records;
      if current.invalidated {
        return Ok(current);
      }
      var updated := current.(invalidated := true, validation := "invalidated", updatedAt := at);
      records := records[i.value := updated];
      return Ok(updated);
    }

    method Revalidate(id: string, at: int) returns (result: Result<Record, MemoryError>)
      modifies this
      ensures Write(old(records), Op.Revalidate(id), at) ==
                match result { case Err(e) => Err(e) case Ok(x) => Ok((records, Some(x))) }
      ensures result.Err? ==> records == old(records)
    {
      var i := Locate(records, id);
      if i.None? {
        return Err(NotFound);
      }
      var current := records[i.value];
      assert records[i.value := current] == records;
      if !current.invalidated {
        return Ok(current);
      }
      var updated := current.(invalidated := false, validation := "committed", updatedAt := at);
      records := records[i.value := updated];
      return Ok(updated);
    }

    method Supersede(id: string, successor: string, at: int) returns (result: Result<Record, MemoryError>)
      modifies this
      ensures Write(old(records), Op.Supersede(id, successor), at) ==
                match result { case Err(e) => Err(e) case Ok(x) => Ok((records, Some(x))) }
      ensures result.Err? ==> records == old(records)
    {
      var i := Locate(records, id);
      if i.None? {
        return Err(NotFound);
      }
      var current := records[i.value];
      assert records[i.value := current] == records;
      if current.supersededBy == Some(successor) {
        return Ok(current);
      }
      if at < current.validFrom {
        return Err(WindowInverted);
      }
      var updated :=
        current.(invalidated := true, validation := "superseded", updatedAt := at, validUntil := Some(at),
                 supersededBy := Some(successor));
      records := records[i.value := updated];
      return Ok(updated);
    }

    method MarkRetrieved(ids: set<string>, at: int)
      modifies this
      ensures Write(old(records), Op.MarkRetrieved(ids), at) == Ok((records, None))
    {
      for i := 0 to |records|
        invariant |records| == |old(records)|
        invariant forall j :: 0 <= j < i ==> records[j] == Touched(old(records[j]), Op.MarkRetrieved(ids), at)
        invariant forall j :: i <= j < |records| ==> records[j] == old(records[j])
      {
        if records[i].id in ids {
          records := records[i := records[i].(lastUsedAt := Some(at))];
        }
      }
      assert records == TouchedAll(old(records), Op.MarkRetrieved(ids), at);
    }

    method RecordOutcome(ids: set<string>, success: bool, at: int)
      modifies this
      ensures Write(old(records), Op.RecordOutcome(ids, success), at) == Ok((records, None))
    {
      for i := 0 to |records|
        invariant |records| == |old(records)|
        invariant forall j :: 0 <= j < i ==> records[j] == Touched(old(records[j]), Op.RecordOutcome(ids, success), at)
        invariant forall j :: i <= j < |records| ==> records[j] == old(records[j])
      {
        if records[i].id in ids {
          var counted := records[i].(successes := records[i].successes + (if success then 1 else 0),
                                     failures := records[i].failures + (if success then 0 else 1));
          records := records[i := counted];
        }
      }
      assert records == TouchedAll(old(records), Op.RecordOutcome(ids, success), at);
    }
  }

  datatype SearchError = LimitNegative

  class LexicalMemoryProjection {
    const lex: Lexer
    var records: map<string, Record>
    var terms: map<string, set<string>>

    constructor (lex: Lexer)
      ensures this.lex == lex && Now() == Index(map[], map[])
    {
      this.lex, this.records, this.terms := lex, map[], map[];
    }

    ghost function Now(): Index
      reads this
    {
      Index(records, terms)
    }

    ghost predicate Valid()
      reads this
    {
      IndexSound(Now())
    }

    method Rebuild(store: seq<Record>, at: int)
      modifies this
      ensures Valid() && Now() == Rebuilt(lex, store, at)
    {
      var newRecords: map<string, Record> := map[];
      var newTerms: map<string, set<string>> := map[];
      for i := 0 to |store|
        invariant Index(newRecords, newTerms) == Rebuilt(lex, store[..i], at)
        invariant newRecords.Keys == newTerms.Keys
      {
        assert store[..i + 1][..i] == store[..i];
        var r := store[i];
        if r.invalidated || !(DurableKind(r.kind) && Active(r, at)) {
          continue;
        }
        newRecords, newTerms := newRecords[r.id := r], newTerms[r.id := lex(r.content)];
      }
      assert store[..|store|] == store;
      records, terms := newRecords, newTerms;
    }

    method Upsert(r: Record, at: int)
      requires Valid()
      modifies this
      ensures Valid() && Now() == Upserted(old(Now()), lex, r, at)
    {
      if r.invalidated || !(DurableKind(r.kind) && Active(r, at)) {
        records, terms := records - {r.id}, terms - {r.id};
        return;
      }
      records, terms := records[r.id := r], terms[r.id := lex(r.content)];
    }

    method Remove(id: string)
      requires Valid()
      modifies this
      ensures Valid() && Now() == Index(old(records) - {id}, old(terms) - {id})
    {
      records, terms := records - {id}, terms - {id};
    }

    /** The best hits, from the one ranking of the indexed records. */
    method Search(query: string, limit: int) returns (r: Result<seq<Hit>, SearchError>)
      requires Valid()
      ensures r == if limit < 0 then Err(LimitNegative) else Ok(FirstOf(RankingOf(Now(), lex(query)), limit))
    {
      var listed := Listed(terms.Keys);
      SetHasNoRepeats(listed, terms.Keys);
      var queryTerms := lex(query);
      var ranked: seq<Hit> := [];
      for i := 0 to |listed|
        invariant ranked == HitsOf(Now(), queryTerms, listed[..i])
      {
        assert listed[..i + 1][..i] == listed[..i];
        var hit := HitOf(Index(records, terms), queryTerms, listed[i]);
        if hit.Some? {
          ranked := ranked + [hit.value];
        }
      }
      assert listed[..|listed|] == listed;
      var sorted := Sort(ranked, Before);
      RankingMade(Now(), queryTerms, listed, sorted);
      RankingUnique(Now(), Now(), queryTerms, sorted, RankingOf(Now(), queryTerms));
      if limit < 0 {
        return Err(LimitNegative);
      }
      return Ok(FirstOf(sorted, limit));
    }
  }

  /** The authoritative store behind its projections: the lexical one, and others known by their answers. */
  class ProjectedMemoryPort {
    const authoritative: InMemoryMemoryPort
    const projection: LexicalMemoryProjection
    const policy: Policy

    ghost predicate Valid()
      reads projection
    {
      projection.Valid()
    }

    constructor (authoritative: InMemoryMemoryPort, projection: LexicalMemoryProjection, policy: Policy, at: int)
      modifies projection
      ensures Valid() && this.authoritative == authoritative && this.projection == projection && this.policy == policy
      ensures projection.Now() == Rebuilt(projection.lex, authoritative.records, at)
    {
      this.authoritative, this.projection, this.policy := authoritative, projection, policy;
      new;
      RebuildProjections(at);
    }

    method RebuildProjections(at: int)
      modifies projection
      ensures Valid() && projection.Now() == Rebuilt(projection.lex, authoritative.records, at)
    {
      projection.Rebuild(authoritative.records, at);
    }

    /** The authoritative write first; its record then reaches the projection. A refused write changes neither. */
    ghost predicate Follows(before: seq<Record>, index: Index, op: Op, at: int, ok: bool)
      reads authoritative, projection
    {
      match Write(before, op, at)
      case Err(_) => !ok && authoritative.records == before && projection.Now() == index
      case Ok((records, r)) =>
        ok && authoritative.records == records &&
        projection.Now() == if r.Some? then Upserted(index, projection.lex, r.value, at) else index
    }

    method Commit(r: Record, at: int)
      requires Valid()
      modifies authoritative, projection
      ensures Valid() && Follows(old(authoritative.records), old(projection.Now()), Op.Commit(r), at, true)
    {
      authoritative.Commit(r, at);
      projection.Upsert(r, at);
    }

    method ImportRecord(r: Record, overwrite: bool, at: int) returns (result: Result<Record, MemoryError>)
      requires Valid()
      modifies authoritative, projection
      ensures Valid() &&
                Follows(old(authoritative.records), old(projection.Now()), Import(r, overwrite), at, result.Ok?)
    {
      result := authoritative.ImportRecord(r, overwrite, at);
      if result.Ok? {
        projection.Upsert(result.value, at);
      }
    }

    method Invalidate(id: string, at: int) returns (result: Result<Record, MemoryError>)
      requires Valid()
      modifies authoritative, projection
      ensures Valid() && Follows(old(authoritative.records), old(projection.Now()), Op.Invalidate(id), at, result.Ok?)
    {
      result := authoritative.Invalidate(id, at);
      if result.Ok? {
        projection.Upsert(result.value, at);
      }
    }

    method Revalidate(id: string, at: int) returns (result: Result<Record, MemoryError>)
      requires Valid()
      modifies authoritative, projection
      ensures Valid() && Follows(old(authoritative.records), old(projection.Now()), Op.Revalidate(id), at, result.Ok?)
    {
      result := authoritative.Revalidate(id, at);
      if result.Ok? {
        projection.Upsert(result.value, at);
      }
    }

    method Supersede(id: string, successor: string, at: int) returns (result: Result<Record, MemoryError>)
      requires Valid()
      modifies authoritative, projection
      ensures Valid() &&
                Follows(old(authoritative.records), old(projection.Now()), Op.Supersede(id, successor), at, result.Ok?)
    {
      result := authoritative.Supersede(id, successor, at);
      if result.Ok? {
        projection.Upsert(result.value, at);
      }
    }

    method RecordOutcome(ids: set<string>, success: bool, at: int)
      requires Valid()
      modifies authoritative
      ensures Valid() &&
                Follows(old(authoritative.records), old(projection.Now()), Op.RecordOutcome(ids, success), at, true)
    {
      authoritative.RecordOutcome(ids, success, at);
    }

    /** The score dictionary, with its keys in the order in which they were added. */
    method Fuse(answers: seq<Answer>) returns (order: seq<string>, scores: map<string, real>)
      ensures order == Mentioned(answers)
      ensures scores.Keys == (set id | id in order)
      ensures forall id :: id in scores ==> scores[id] == FusionScore(policy.k, answers, id)
    {
      hide MemoryFusion.Share;
      order, scores := [], map[];
      for j := 0 to |answers|
        invariant order == Mentioned(answers[..j]) && scores.Keys == (set id | id in order)
        invariant forall id :: id in scores ==> scores[id] == FusionScore(policy.k, answers[..j], id)
      {
        assert answers[..j + 1][..j] == answers[..j];
        order, scores := FuseOne(answers[..j], answers[j], order, scores);
      }
      assert answers[..|answers|] == answers;
    }

    /** The hits of one more projection. */
    method FuseOne(before: seq<Answer>, a: Answer, noted: seq<string>, scored: map<string, real>)
      returns (order: seq<string>, scores: map<string, real>)
      requires noted == Mentioned(before) && scored.Keys == (set id | id in noted)
      requires forall id :: id in scored ==> scored[id] == FusionScore(policy.k, before, id)
      ensures order == Noted(noted, a.hits) && scores.Keys == (set id | id in order)
      ensures forall id ::
                id in scores ==>
                scores[id] == FusionScore(policy.k, before, id) + RankScore(policy.k, a.weight, a.hits, id)
    {
      hide FusionScore, Mentioned, Mentions, RankScore, Noted, MemoryFusion.Share;
      NothingHit(policy.k, noted, a.weight);
      order, scores := noted, scored;
      MentionedExactly(before);
      for i := 0 to |a.hits|
        invariant order == Noted(noted, a.hits[..i]) && scores.Keys == (set id | id in order)
        invariant forall id ::
                    id in scores ==>
                    scores[id] == FusionScore(policy.k, before, id) + RankScore(policy.k, a.weight, a.hits[..i], id)
      {
        var id := a.hits[i];
        OneMoreHit(policy.k, noted, a.weight, a.hits, i);
        var share := MemoryFusion.Share(policy.k, a.weight, i + 1);
        if id in scores {
          scores := scores[id := scores[id] + share];
        } else {
          NewlyNoted(policy.k, before, a.weight, a.hits[..i], id);
          order, scores := order + [id], scores[id := share];
        }
      }
      assert a.hits[..|a.hits|] == a.hits;
    }

    /** The scores of the active records among the ids that were hit. */
    method Rescored(answers: seq<Answer>, order: seq<string>, scores: map<string, real>, at: int)
      returns (r: seq<Hit>)
      requires scores.Keys == (set id | id in order)
      requires forall id :: id in scores ==> scores[id] == FusionScore(policy.k, answers, id)
      ensures r == CandidatesAmong(policy, authoritative.records, answers, order, at)
    {
      hide ActiveById, FusionScore;
      r := [];
      for i := 0 to |order|
        invariant r == CandidatesAmong(policy, authoritative.records, answers, order[..i], at)
      {
        assert order[..i + 1][..i] == order[..i];
        var record := ActiveById(authoritative.records, order[i], at);
        if record.Some? {
          r := r + [Hit(order[i], scores[order[i]] + policy.metadata(record.value, at))];
        }
      }
      assert order[..|order|] == order;
    }

    /** What the lexical projection answers to a search. */
    ghost function LexicalAnswer(query: string, limit: nat): Answer
      requires Valid()
      reads projection
    {
      Answer(policy.weight, Ids(FirstOf(RankingOf(projection.Now(), projection.lex(query)), limit * 4)))
    }

    /** The answers of all projections, fused and reranked over the active records; the selected ones are marked. */
    method Search(query: string, limit: int, at: int, others: seq<Answer>) returns (r: Result<seq<string>, SearchError>)
      requires Valid()
      modifies authoritative
      ensures Valid() && projection.Now() == old(projection.Now())
      ensures r == if limit < 0 then Err(LimitNegative)
                   else
                     var answers := [LexicalAnswer(query, limit)] + others;
                     Ok(Selected(policy, old(authoritative.records), answers, limit, at))
      ensures r.Err? ==> authoritative.records == old(authoritative.records)
      ensures r.Ok? ==>
                authoritative.records ==
                TouchedAll(old(authoritative.records), MarkRetrieved((set id | id in r.value)), at)
    {
      hide Ranks, CandidatesAmong, Sort, IndexSound, RankingOf, FusionScore, Mentioned;
      var hits := projection.Search(query, if limit > 0 then limit * 4 else limit);
      if hits.Err? {
        return Err(LimitNegative);
      }
      var answers := [Answer(policy.weight, Ids(hits.value))] + others;
      var order, scores := Fuse(answers);
      var candidates := Rescored(answers, order, scores, at);
      var ids := Ids(FirstOf(Sort(candidates, Before), limit));
      authoritative.MarkRetrieved((set id | id in ids), at);
      return Ok(ids);
    }
  }
}
