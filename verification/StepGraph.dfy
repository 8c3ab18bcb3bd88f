/** The depth-first check a plan's dependency graph must pass (planning/compiler.py). */
module StepGraph {
  import opened Listing
  import opened Outcomes

  type Graph = map<string, seq<string>>

  /** Every dependency names a step of the graph. */
  ghost predicate Closed(g: Graph) {
    forall n, d :: n in g && d in g[n] ==> d in g
  }

  /** A non-empty walk along dependency edges, from a step towards what it needs. */
  ghost predicate Walk(g: Graph, p: seq<string>) {
    && p != []
    && (forall i :: 0 <= i < |p| ==> p[i] in g)
    && (forall i :: 0 <= i < |p| - 1 ==> p[i + 1] in g[p[i]])
  }

  ghost predicate CycleWalk(g: Graph, p: seq<string>) {
    Walk(g, p) && |p| >= 2 && p[0] == p[|p| - 1]
  }

  ghost predicate CycleThrough(g: Graph, n: string) {
    exists p :: CycleWalk(g, p) && p[0] == n
  }

  ghost predicate Acyclic(g: Graph) {
    forall p :: !CycleWalk(g, p)
  }

  /** Every listed step comes after all of its dependencies. */
  ghost predicate DependenciesFirst(g: Graph, order: seq<string>) {
    && NoRepeats(order)
    && (forall i :: 0 <= i < |order| ==> order[i] in g)
    && (forall i, d :: 0 <= i < |order| && d in g[order[i]] ==> d in order[..i])
  }

  ghost predicate TopologicalOrder(g: Graph, order: seq<string>) {
    && DependenciesFirst(g, order)
    && (forall n :: n in g ==> n in order)
  }

  /** Along a walk inside a topological order, positions strictly fall. */
  lemma {:induction false} WalkDescends(g: Graph, order: seq<string>, p: seq<string>, at: nat)
    requires TopologicalOrder(g, order) && Walk(g, p)
    requires at < |order| && order[at] == p[0]
    ensures p[|p| - 1] in order[..at + 1]
    ensures |p| >= 2 ==> p[|p| - 1] in order[..at]
  {
    if |p| >= 2 {
      assert p[1] in order[..at];
      var next :| 0 <= next < at && order[next] == p[1];
      var tail := p[1..];
      assert Walk(g, tail) by {
        forall i | 0 <= i < |tail| - 1
          ensures tail[i + 1] in g[tail[i]]
        {
          assert p[i + 1 + 1] in g[p[i + 1]];
        }
      }
      WalkDescends(g, order, tail, next);
      assert order[..next + 1] <= order[..at];
    }
  }

  lemma TopologicalOrderIsAcyclic(g: Graph, order: seq<string>)
    requires TopologicalOrder(g, order)
    ensures Acyclic(g)
  {
    forall p
      ensures !CycleWalk(g, p)
    {
      if CycleWalk(g, p) {
        var at :| 0 <= at < |order| && order[at] == p[0];
        WalkDescends(g, order, p, at);
      }
    }
  }

  /** The mutable sets shared by the nested `visit` calls, with the order of insertion. */
  class DependencyWalk {
    const deps: Graph
    var visiting: set<string>
    var visited: set<string>
    ghost var order: seq<string>

    ghost predicate Valid()
      reads this
    {
      && Closed(deps)
      && visiting <= deps.Keys
      && visiting !! visited
      && (forall n :: n in visited <==> n in order)
      && DependenciesFirst(deps, order)
    }

    constructor (deps: Graph)
      requires Closed(deps)
      ensures Valid() && this.deps == deps && visiting == {} && visited == {} && order == []
    {
      this.deps := deps;
      visiting, visited, order := {}, {}, [];
    }

    /** `path` is the chain of calls above this one. */
    method Visit(id: string, ghost path: seq<string>) returns (cycle: Option<string>)
      requires Valid() && Walk(deps, path + [id])
      requires forall n :: n in visiting <==> n in path
      modifies this
      decreases deps.Keys - visiting
      ensures cycle.None? ==> Valid() && visiting == old(visiting) && old(order) <= order && id in visited
      ensures cycle.Some? ==> CycleThrough(deps, cycle.value)
    {
      assert (path + [id])[|path|] == id;
      if id in visited {
        return None;
      }
      if id in visiting {
        CycleOnPath(deps, path, id);
        return Some(id);
      }
      visiting := visiting + {id};
      ghost var here := path + [id];
      var needs := deps[id];
      for i := 0 to |needs|
        invariant Valid() && visiting == old(visiting) + {id}
        invariant old(order) <= order && id !in visited
        invariant forall k :: 0 <= k < i ==> needs[k] in visited
      {
        assert needs[i] in deps;
        WalkExtends(deps, here, needs[i]);
        ghost var before := order;
        cycle := Visit(needs[i], here);
        if cycle.Some? {
          return;
        }
        forall k | 0 <= k < i
          ensures needs[k] in visited
        {
          assert needs[k] in before;
        }
      }
      visiting := visiting - {id};
      visited := visited + {id};
      AppendStep(deps, order, id);
      order := order + [id];
      return None;
    }
  }

  lemma WalkExtends(g: Graph, p: seq<string>, d: string)
    requires Walk(g, p) && d in g && d in g[p[|p| - 1]]
    ensures Walk(g, p + [d])
  {
  }

  lemma AppendStep(g: Graph, order: seq<string>, id: string)
    requires DependenciesFirst(g, order) && id in g && id !in order
    requires forall d :: d in g[id] ==> d in order
    ensures DependenciesFirst(g, order + [id])
  {
    var more := order + [id];
    forall i, d | 0 <= i < |more| && d in g[more[i]]
      ensures d in more[..i]
    {
      if i < |order| {
        assert d in order[..i];
        assert more[..i] == order[..i];
      } else {
        assert more[..i] == order;
      }
    }
  }

  lemma CycleOnPath(g: Graph, path: seq<string>, id: string)
    requires id in path && Walk(g, path + [id])
    ensures CycleThrough(g, id)
  {
    var k :| 0 <= k < |path| && path[k] == id;
    var whole := path + [id];
    var loop := whole[k..];
    forall i | 0 <= i < |loop| - 1
      ensures loop[i + 1] in g[loop[i]]
    {
      assert whole[k + i + 1] in g[whole[k + i]];
    }
    assert CycleWalk(g, loop);
  }

  /**
   * `_assert_acyclic`: visits the steps in declaration order. It accepts exactly the
   * acyclic graphs, and then `order` (the order of insertion into `visited`) is a
   * topological order of all steps; a refusal names a step that lies on a cycle.
   */
  method FindCycle(ids: seq<string>, deps: Graph) returns (cycle: Option<string>, ghost order: seq<string>)
    requires Closed(deps)
    requires forall n :: n in deps <==> n in ids
    ensures cycle.None? <==> Acyclic(deps)
    ensures cycle.None? ==> TopologicalOrder(deps, order)
    ensures cycle.Some? ==> CycleThrough(deps, cycle.value)
  {
    var walk := new DependencyWalk(deps);
    for i := 0 to |ids|
      invariant walk.Valid() && walk.deps == deps && walk.visiting == {}
      invariant forall k :: 0 <= k < i ==> ids[k] in walk.order
    {
      cycle := walk.Visit(ids[i], []);
      if cycle.Some? {
        order := walk.order;
        return;
      }
    }
    TopologicalOrderIsAcyclic(deps, walk.order);
    return None, walk.order;
  }

  /**
   * In an acyclic graph every non-empty set of steps has a member that needs nothing
   * from the set: following dependencies inside the set must stop.
   */
  lemma MinimalStep(g: Graph, pool: set<string>) returns (m: string)
    requires Acyclic(g) && pool != {} && pool <= g.Keys
    ensures m in pool && forall d :: d in g[m] ==> d !in pool
  {
    m :| m in pool;
    var path := [m];
    var seen := {m};
    while exists d :: d in g[m] && d in pool
      invariant Walk(g, path) && m == path[|path| - 1] && m in pool
      invariant forall n :: n in seen <==> n in path
      invariant seen <= pool
      decreases pool - seen
    {
      var d :| d in g[m] && d in pool;
      WalkExtends(g, path, d);
      if d in path {
        CycleOnPath(g, path, d);
        assert false;
      }
      path, seen, m := path + [d], seen + {d}, d;
    }
  }
}
