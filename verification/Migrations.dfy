/** Chains of snapshot migrations, enumerated (identity/migrations.py). */
module MigrationChains {
  import opened Listing

  datatype Migration = Migration(id: string, source: int, target: int)

  /** A migration advances between positive versions; the source refuses to build any other. */
  predicate Advances(m: Migration) {
    0 < m.source < m.target
  }

  predicate AllAdvance(edges: seq<Migration>) {
    forall m :: m in edges ==> Advances(m)
  }

  /** Consecutive registered migrations from one version to another. */
  predicate Chain(edges: seq<Migration>, path: seq<Migration>, source: int, target: int) {
    if path == [] then source == target
    else path[0] in edges && path[0].source == source && Chain(edges, path[1..], path[0].target, target)
  }

  lemma {:induction false} ChainAdvances(edges: seq<Migration>, path: seq<Migration>, source: int, target: int)
    requires AllAdvance(edges) && Chain(edges, path, source, target)
    ensures source + |path| <= target
  {
    if path != [] {
      ChainAdvances(edges, path[1..], path[0].target, target);
    }
  }

  /** Every chain, in the order in which a walk over `edges` finds them; `k` is the first edge still to try. */
  function Chains(edges: seq<Migration>, k: nat, source: int, target: int): seq<seq<Migration>>
    requires AllAdvance(edges) && k <= |edges|
    decreases if target > source then target - source else 0, |edges| - k
  {
    if source == target then [[]]
    else if k == |edges| then []
    else if
      assert edges[k] in edges;
      edges[k].source != source || edges[k].target > target
    then Chains(edges, k + 1, source, target)
    else Prefixed([edges[k]], Chains(edges, 0, edges[k].target, target)) + Chains(edges, k + 1, source, target)
  }

  function Prefixed(prefix: seq<Migration>, paths: seq<seq<Migration>>): (r: seq<seq<Migration>>)
    ensures |r| == |paths| && forall i :: 0 <= i < |r| ==> r[i] == prefix + paths[i]
  {
    if paths == [] then [] else [prefix + paths[0]] + Prefixed(prefix, paths[1..])
  }

  /** A chain that starts with one of the edges from `k` on. */
  predicate StartsFrom(edges: seq<Migration>, k: nat, path: seq<Migration>)
    requires k <= |edges|
  {
    path == [] || path[0] in edges[k..]
  }

  lemma PrefixedExact(e: Migration, paths: seq<seq<Migration>>, path: seq<Migration>)
    ensures path in Prefixed([e], paths) <==> path != [] && path[0] == e && path[1..] in paths
  {
    var r := Prefixed([e], paths);
    if path in r {
      var i :| 0 <= i < |r| && r[i] == path;
      assert paths[i] == path[1..];
    }
    if path != [] && path[0] == e && path[1..] in paths {
      var i :| 0 <= i < |paths| && paths[i] == path[1..];
      assert path == [e] + path[1..] && r[i] == path;
    }
  }

  /** The enumeration holds all chains and nothing else. */
  lemma {:induction false} ChainsExact(edges: seq<Migration>, k: nat, source: int, target: int, path: seq<Migration>)
    requires AllAdvance(edges) && k <= |edges|
    ensures path in Chains(edges, k, source, target) <==>
              Chain(edges, path, source, target) && StartsFrom(edges, k, path)
    decreases if target > source then target - source else 0, |edges| - k
  {
    if source == target {
      if Chain(edges, path, source, target) {
        ChainAdvances(edges, path, source, target);
      }
    } else if k < |edges| {
      var e := edges[k];
      assert e in edges && edges[k..] == [e] + edges[k + 1..];
      ChainsExact(edges, k + 1, source, target, path);
      if e.source == source && e.target <= target {
        PrefixedExact(e, Chains(edges, 0, e.target, target), path);
        if path != [] && path[0] == e {
          assert edges[0..] == edges;
          ChainsExact(edges, 0, e.target, target, path[1..]);
        }
      } else if path != [] && path[0] == e && Chain(edges, path, source, target) {
        ChainAdvances(edges, path[1..], e.target, target);
      }
    }
  }

  /** No chain is listed twice. */
  lemma {:induction false} ChainsDistinct(edges: seq<Migration>, k: nat, source: int, target: int)
    requires AllAdvance(edges) && k <= |edges| && NoRepeats(edges)
    ensures NoRepeats(Chains(edges, k, source, target))
    decreases if target > source then target - source else 0, |edges| - k
  {
    if source != target && k < |edges| {
      assert edges[k] in edges;
      var e, others := edges[k], Chains(edges, k + 1, source, target);
      ChainsDistinct(edges, k + 1, source, target);
      if e.source == source && e.target <= target {
        var rest := Chains(edges, 0, e.target, target);
        ChainsDistinct(edges, 0, e.target, target);
        PrefixedDistinct(e, rest);
        forall path | path in others
          ensures path !in Prefixed([e], rest)
        {
          ChainsExact(edges, k + 1, source, target, path);
          assert e !in edges[k + 1..];
          assert forall i :: 0 <= i < |rest| ==> Prefixed([e], rest)[i][0] == e;
        }
        NoRepeatsConcat(Prefixed([e], rest), others);
      }
    }
  }

  lemma PrefixedDistinct(e: Migration, paths: seq<seq<Migration>>)
    requires NoRepeats(paths)
    ensures NoRepeats(Prefixed([e], paths))
  {
    var r := Prefixed([e], paths);
    forall i, j | 0 <= i < j < |r|
      ensures r[i] != r[j]
    {
      assert r[i][1..] == paths[i] && r[j][1..] == paths[j];
    }
  }

  function Shortest(paths: seq<seq<Migration>>): (r: nat)
    requires paths != []
    ensures forall p :: p in paths ==> r <= |p|
    ensures exists p :: p in paths && |p| == r
  {
    if |paths| == 1 then
      assert paths[0] in paths;
      |paths[0]|
    else
      var rest := Shortest(paths[1..]);
      assert paths == [paths[0]] + paths[1..];
      if |paths[0]| < rest then |paths[0]| else rest
  }

  function OfLength(paths: seq<seq<Migration>>, n: nat): (r: seq<seq<Migration>>)
    ensures forall p :: p in r <==> p in paths && |p| == n
  {
    if paths == [] then []
    else
      assert paths == [paths[0]] + paths[1..];
      (if |paths[0]| == n then [paths[0]] else []) + OfLength(paths[1..], n)
  }

  lemma {:induction false} OfLengthDistinct(paths: seq<seq<Migration>>, n: nat)
    requires NoRepeats(paths)
    ensures NoRepeats(OfLength(paths, n))
  {
    if paths != [] {
      OfLengthDistinct(paths[1..], n);
      assert forall p :: p in OfLength(paths[1..], n) ==> p in paths[1..];
      assert paths[0] !in paths[1..];
    }
  }
}

/** Planning and applying migrations over a registry (identity/migrations.py). */
module Migrations {
  import opened Outcomes
  import opened Sorting
  import opened Listing
  import opened MigrationChains

  datatype PlanError =
    | VersionsNotPositive | DowngradeUnsupported | NoPath | AmbiguousPath | NonObject(id: string) | DuplicateMigration

  /** A chain that every other chain exceeds in length. */
  ghost predicate UniqueShortest(edges: seq<Migration>, path: seq<Migration>, source: int, target: int) {
    Chain(edges, path, source, target) && forall q :: Chain(edges, q, source, target) && q != path ==> |path| < |q|
  }

  ghost predicate Reachable(edges: seq<Migration>, source: int, target: int) {
    exists q :: Chain(edges, q, source, target)
  }

  /** The planner's choice among the enumerated chains. */
  function Chosen(paths: seq<seq<Migration>>): Result<seq<Migration>, PlanError> {
    if paths == [] then Err(NoPath)
    else
      var candidates := OfLength(paths, Shortest(paths));
      if |candidates| != 1 then Err(AmbiguousPath) else Ok(candidates[0])
  }

  lemma ChosenMeans(edges: seq<Migration>, source: int, target: int)
    requires AllAdvance(edges) && NoRepeats(edges)
    ensures var r := Chosen(Chains(edges, 0, source, target)); r == Err(NoPath) <==> !Reachable(edges, source, target)
    ensures var r := Chosen(Chains(edges, 0, source, target)); r.Ok? ==> UniqueShortest(edges, r.value, source, target)
    ensures var r := Chosen(Chains(edges, 0, source, target));
            r == Err(AmbiguousPath) <==>
            Reachable(edges, source, target) && forall p :: !UniqueShortest(edges, p, source, target)
    ensures var r := Chosen(Chains(edges, 0, source, target)); r.Ok? || r == Err(NoPath) || r == Err(AmbiguousPath)
  {
    hide Chain, Chains, Shortest, OfLength;
    var paths := Chains(edges, 0, source, target);
    forall p
      ensures p in paths <==> Chain(edges, p, source, target)
    {
      ChainsExact(edges, 0, source, target, p);
      StartsAnywhere(edges, p, source, target);
    }
    if paths == [] {
      assert !Reachable(edges, source, target);
    } else {
      assert paths[0] in paths;
      var shortest := Shortest(paths);
      var candidates := OfLength(paths, shortest);
      ChainsDistinct(edges, 0, source, target);
      OfLengthDistinct(paths, shortest);
      var one :| one in paths && |one| == shortest;
      assert one in candidates;
      if |candidates| == 1 {
        assert candidates[0] == one;
        forall q | Chain(edges, q, source, target) && q != one
          ensures |one| < |q|
        {
          assert q in paths && q !in candidates;
        }
      } else {
        assert candidates[0] in candidates && candidates[1] in candidates && candidates[0] != candidates[1];
        forall p
          ensures !UniqueShortest(edges, p, source, target)
        {
          if p == candidates[0] {
            assert Chain(edges, candidates[1], source, target);
          } else {
            assert Chain(edges, candidates[0], source, target);
          }
        }
      }
    }
  }

  lemma StartsAnywhere(edges: seq<Migration>, p: seq<Migration>, source: int, target: int)
    ensures Chain(edges, p, source, target) ==> StartsFrom(edges, 0, p)
  {
    assert edges[0..] == edges;
  }

  lemma TrivialChain(edges: seq<Migration>, version: int)
    requires AllAdvance(edges)
    ensures UniqueShortest(edges, [], version, version)
  {
    forall q | Chain(edges, q, version, version)
      ensures q == []
    {
      ChainAdvances(edges, q, version, version);
    }
  }

  lemma {:induction false} ChainEnds(edges: seq<Migration>, path: seq<Migration>, source: int, target: int)
    requires UniqueShortest(edges, path, source, target)
    ensures if path == [] then source == target else path[|path| - 1].target == target
    ensures AllAdvance(edges) && path != [] ==> source < target
  {
    LastTarget(edges, path, source, target);
    if AllAdvance(edges) {
      ChainAdvances(edges, path, source, target);
    }
  }

  lemma {:induction false} LastTarget(edges: seq<Migration>, path: seq<Migration>, source: int, target: int)
    requires Chain(edges, path, source, target)
    ensures if path == [] then source == target else path[|path| - 1].target == target
  {
    if path != [] {
      LastTarget(edges, path[1..], path[0].target, target);
    }
  }

  lemma {:induction false} PrefixedAppend(prefix: seq<Migration>, a: seq<seq<Migration>>, b: seq<seq<Migration>>)
    ensures Prefixed(prefix, a + b) == Prefixed(prefix, a) + Prefixed(prefix, b)
  {
    if a == [] {
      assert a + b == b;
    } else {
      assert (a + b)[1..] == a[1..] + b;
      PrefixedAppend(prefix, a[1..], b);
    }
  }

  lemma PrefixedTwice(prefix: seq<Migration>, e: Migration, paths: seq<seq<Migration>>)
    ensures Prefixed(prefix + [e], paths) == Prefixed(prefix, Prefixed([e], paths))
  {
    var x, y := Prefixed(prefix + [e], paths), Prefixed(prefix, Prefixed([e], paths));
    forall i | 0 <= i < |paths|
      ensures x[i] == y[i]
    {
      assert prefix + [e] + paths[i] == prefix + ([e] + paths[i]);
    }
  }

  lemma PrefixedSingle(path: seq<Migration>)
    ensures Prefixed(path, [[]]) == [path]
  {
    assert path + [] == path;
  }

  /** One round of the walk: an edge it may take adds the chains behind that edge, any other edge adds none. */
  lemma WalkStep(
    edges: seq<Migration>, k: nat, source: int, target: int, path: seq<Migration>, found: seq<seq<Migration>>)
    requires AllAdvance(edges) && k < |edges| && source < target
    ensures edges[k] in edges
    ensures var e, rest := edges[k], Prefixed(path, Chains(edges, k + 1, source, target));
            found + Prefixed(path, Chains(edges, k, source, target))
            == if e.source != source || e.target > target then found + rest
               else found + Prefixed(path + [e], Chains(edges, 0, e.target, target)) + rest
  {
    hide Prefixed;
    var e := edges[k];
    if e.source == source && e.target <= target {
      var behind, rest := Chains(edges, 0, e.target, target), Chains(edges, k + 1, source, target);
      assert Chains(edges, k, source, target) == Prefixed([e], behind) + rest;
      PrefixedTwice(path, e, behind);
      PrefixedAppend(path, Prefixed([e], behind), rest);
    }
  }

  lemma WalkEnds(edges: seq<Migration>, source: int, target: int, path: seq<Migration>)
    requires AllAdvance(edges)
    ensures source == target ==> Prefixed(path, Chains(edges, 0, source, target)) == [path]
    ensures source != target ==> Prefixed(path, Chains(edges, |edges|, source, target)) == []
  {
    PrefixedSingle(path);
  }

  lemma PrefixedNothing(paths: seq<seq<Migration>>)
    ensures [] + Prefixed([], paths) == paths
  {
    forall i | 0 <= i < |paths|
      ensures Prefixed([], paths)[i] == paths[i]
    {
      assert [] + paths[i] == paths[i];
    }
  }

  predicate KeyOrder(a: Migration, b: Migration) {
    a.source < b.source || (a.source == b.source && a.target <= b.target)
  }

  datatype Payload = Payload(version: int, body: string)

  datatype Record = Record(id: string, source: int, target: int)

  function RecordsOf(path: seq<Migration>): seq<Record> {
    if path == [] then []
    else RecordsOf(path[..|path| - 1]) + [Record(path[|path| - 1].id, path[|path| - 1].source, path[|path| - 1].target)]
  }

  /** Run the transforms of a chain in order, stamping the target version after each. */
  function Transformed(
    run: (string, Payload) -> Option<Payload>, payload: Payload, path: seq<Migration>): Result<Payload, PlanError>
  {
    if path == [] then Ok(payload)
    else
      var last := path[|path| - 1];
      match Transformed(run, payload, path[..|path| - 1])
      case Err(e) => Err(e)
      case Ok(current) =>
        match run(last.id, current)
        case None => Err(NonObject(last.id))
        case Some(p) => Ok(p.(version := last.target))
  }

  /** A transform that fails on the way fails the whole chain, with its own error. */
  lemma {:induction false} FailureStays(
    run: (string, Payload) -> Option<Payload>, payload: Payload, path: seq<Migration>, n: nat)
    requires n <= |path| && Transformed(run, payload, path[..n]).Err?
    ensures Transformed(run, payload, path) == Transformed(run, payload, path[..n])
    decreases |path| - n
  {
    if n == |path| {
      assert path[..n] == path;
    } else {
      assert path[..n + 1][..n] == path[..n];
      FailureStays(run, payload, path, n + 1);
    }
  }

  class Registry {
    var migrations: map<(int, int), Migration>

    ghost predicate Valid()
      reads this
    {
      forall k :: k in migrations ==> Advances(migrations[k]) && k == (migrations[k].source, migrations[k].target)
    }

    constructor ()
      ensures Valid() && migrations == map[]
    {
      migrations := map[];
    }

    method Register(m: Migration) returns (r: Result<(), PlanError>)
      requires Valid() && Advances(m)
      modifies this
      ensures Valid()
      ensures r == if (m.source, m.target) in old(migrations) then Err(DuplicateMigration) else Ok(())
      ensures migrations == if r.Ok? then old(migrations)[(m.source, m.target) := m] else old(migrations)
    {
      if (m.source, m.target) in migrations {
        return Err(DuplicateMigration);
      }
      migrations := migrations[(m.source, m.target) := m];
      return Ok(());
    }

    /** A sequence of all registered migrations. */
    ghost predicate Holds(edges: seq<Migration>)
      reads this
    {
      NoRepeats(edges) &&
      forall m :: m in edges <==> (m.source, m.target) in migrations && migrations[(m.source, m.target)] == m
    }

    /** The registered migrations in key order. */
    method Edges() returns (edges: seq<Migration>)
      requires Valid()
      ensures Holds(edges) && AllAdvance(edges)
    {
      var listed: seq<Migration> := [];
      var todo := migrations.Keys;
      while todo != {}
        invariant todo <= migrations.Keys
        invariant NoRepeats(listed) &&
                    forall m ::
                    m in listed <==>
                    (m.source, m.target) in migrations.Keys - todo && migrations[(m.source, m.target)] == m
        decreases |todo|
      {
        var k :| k in todo;
        listed, todo := listed + [migrations[k]], todo - {k};
      }
      edges := Sort(listed, KeyOrder);
      SortedNoRepeats(listed, KeyOrder);
    }

    /** The recursive walk: appends every chain from `version` on, behind `path`. */
    method Walk(
      edges: seq<Migration>, version: int, target: int, path: seq<Migration>, visited: set<int>,
      paths: seq<seq<Migration>>)
      returns (found: seq<seq<Migration>>)
      requires AllAdvance(edges) && version <= target
      requires forall v :: v in visited ==> v <= version
      ensures found == paths + Prefixed(path, Chains(edges, 0, version, target))
      decreases target - version
    {
      hide Chains, Prefixed;
      WalkEnds(edges, version, target, path);
      if version == target {
        found := paths + [path];
        return;
      }
      found := paths;
      for k := 0 to |edges|
        invariant found + Prefixed(path, Chains(edges, k, version, target)) ==
                  paths + Prefixed(path, Chains(edges, 0, version, target))
      {
        var e := edges[k];
        WalkStep(edges, k, version, target, path, found);
        if !(e.source != version || e.target > target || e.target in visited) {
          found := Walk(edges, e.target, target, path + [e], visited + {e.target}, found);
        }
      }
    }

    /** The unique shortest chain, or why there is none. */
    method Plan(source: int, target: int) returns (r: Result<seq<Migration>, PlanError>, ghost edges: seq<Migration>)
      requires Valid()
      ensures Holds(edges) && AllAdvance(edges)
      ensures r == Err(VersionsNotPositive) <==> source <= 0 || target <= 0
      ensures r == Err(DowngradeUnsupported) <==> 0 < target < source
      ensures r == Err(NoPath) <==> 0 < source < target && !Reachable(edges, source, target)
      ensures r == Err(AmbiguousPath) <==>
                0 < source < target && Reachable(edges, source, target) &&
                forall p :: !UniqueShortest(edges, p, source, target)
      ensures r.Ok? ==> 0 < source <= target && UniqueShortest(edges, r.value, source, target)
      ensures r.Err? ==> r.error in {VersionsNotPositive, DowngradeUnsupported, NoPath, AmbiguousPath}
    {
      hide Chain, Chains, Chosen;
      var sorted := Edges();
      edges := sorted;
      if source <= 0 || target <= 0 {
        return Err(VersionsNotPositive), edges;
      }
      if source == target {
        TrivialChain(edges, source);
        return Ok([]), edges;
      }
      if source > target {
        return Err(DowngradeUnsupported), edges;
      }
      var paths := Walk(sorted, source, target, [], {source}, []);
      PrefixedNothing(Chains(sorted, 0, source, target));
      assert paths == Chains(sorted, 0, source, target);
      ChosenMeans(sorted, source, target);
      return Chosen(paths), edges;
    }

    /** Migrate a payload; the outcome is at the target version, with one record for each step of the plan. */
    method Apply(payload: Payload, source: int, target: int, run: (string, Payload) -> Option<Payload>)
      returns (r: Result<(Payload, seq<Record>), PlanError>, ghost edges: seq<Migration>, ghost path: seq<Migration>)
      requires Valid()
      ensures Holds(edges) && AllAdvance(edges)
      ensures r == Err(VersionsNotPositive) <==> source <= 0 || target <= 0
      ensures r == Err(DowngradeUnsupported) <==> 0 < target < source
      ensures r == Err(NoPath) <==> 0 < source < target && !Reachable(edges, source, target)
      ensures r == Err(AmbiguousPath) <==>
              && 0 < source < target && Reachable(edges, source, target)
              && forall p :: !UniqueShortest(edges, p, source, target)
      ensures r.Ok? || (r.Err? && r.error.NonObject?) ==>
                UniqueShortest(edges, path, source, target) && 0 < source <= target
      ensures r.Ok? ==> Transformed(run, payload, path) == Ok(r.value.0) && r.value.1 == RecordsOf(path)
      ensures r.Ok? && source != target ==> r.value.0.version == target && r.value.1 != []
      ensures r.Ok? && source == target ==> r.value == (payload, [])
      ensures r.Err? && r.error.NonObject? ==> Transformed(run, payload, path) == Err(r.error)
      ensures r.Err? ==>
                r.error in {VersionsNotPositive, DowngradeUnsupported, NoPath, AmbiguousPath} || r.error.NonObject?
    {
      hide Chain, UniqueShortest, Reachable;
      var planned, e := Plan(source, target);
      edges, path := e, [];
      if planned.Err? {
        return Err(planned.error), edges, path;
      }
      path := planned.value;
      var current := payload;
      var records: seq<Record> := [];
      for i := 0 to |planned.value|
        invariant Transformed(run, payload, path[..i]) == Ok(current) && records == RecordsOf(path[..i])
        invariant i > 0 ==> current.version == path[i - 1].target
      {
        var m := planned.value[i];
        assert path[..i + 1][..i] == path[..i];
        var transformed := run(m.id, current);
        if transformed.None? {
          FailureStays(run, payload, path, i + 1);
          return Err(NonObject(m.id)), edges, path;
        }
        current := transformed.value.(version := m.target);
        records := records + [Record(m.id, m.source, m.target)];
      }
      assert path[..|path|] == path;
      ChainEnds(edges, path, source, target);
      return Ok((current, records)), edges, path;
    }
  }
}
