/** The dependency graph of a plan: cycle detection by depth-first search and the two
    notions of depth (backend/app/agents/registry.py, backend/app/agents/coordinator.py).
    A graph maps a node to its dependencies; nodes outside its domain have none. */
module DependencyGraph {

  type Graph = map<int, seq<int>>

  function Deps(g: Graph, n: int): seq<int> {
    if n in g then g[n] else []
  }

  /** Every node of the walk depends on the next one. */
  predicate Walk(g: Graph, p: seq<int>) {
    p != [] && forall k :: 0 <= k < |p| - 1 ==> p[k + 1] in Deps(g, p[k])
  }

  predicate WalkFrom(g: Graph, n: int, p: seq<int>) {
    Walk(g, p) && p[0] == n
  }

  ghost predicate HasCycle(g: Graph) {
    exists p :: Walk(g, p) && |p| >= 2 && p[0] == p[|p| - 1]
  }

  lemma WalkExtend(g: Graph, p: seq<int>, n: int)
    requires Walk(g, p) && n in Deps(g, p[|p| - 1])
    ensures Walk(g, p + [n])
  {
  }

  lemma FirstStep(g: Graph, p: seq<int>)
    requires Walk(g, p) && |p| > 1
    ensures p[1] in Deps(g, p[0])
  {
    assert p[0 + 1] in Deps(g, p[0]);
  }

  lemma WalkSuffix(g: Graph, p: seq<int>, k: nat)
    requires Walk(g, p) && k < |p|
    ensures Walk(g, p[k..])
  {
    forall j | 0 <= j < |p[k..]| - 1
      ensures p[k..][j + 1] in Deps(g, p[k..][j])
    {
      assert p[k..][j] == p[k + j] && p[k..][j + 1] == p[k + j + 1];
    }
  }

  // --- Finishing order -----------------------------------------------------------------

  /** Nodes in the order in which the search finished them: distinct, each one after all
      its dependencies. */
  ghost predicate Finished(g: Graph, order: seq<int>) {
    && (forall i, j :: 0 <= i < j < |order| ==> order[i] != order[j])
    && (forall i, d :: 0 <= i < |order| && d in Deps(g, order[i]) ==> d in order[..i])
  }

  /** Along a walk the finishing position strictly falls. */
  lemma {:induction false} WalkFalls(g: Graph, order: seq<int>, p: seq<int>, i: nat) returns (j: nat)
    requires Finished(g, order) && Walk(g, p) && i < |order| && p[0] == order[i]
    ensures j < |order| && order[j] == p[|p| - 1] && (if |p| >= 2 then j < i else j == i)
    decreases |p|
  {
    if |p| == 1 {
      j := i;
    } else {
      assert p[0 + 1] in Deps(g, order[i]);
      var k :| 0 <= k < i && order[k] == p[1];
      WalkSuffix(g, p, 1);
      j := WalkFalls(g, order, p[1..], k);
    }
  }

  /** A graph all of whose nodes were finished has no cycle. */
  lemma FinishedAcyclic(g: Graph, order: seq<int>)
    requires Finished(g, order) && forall n :: n in g ==> n in order
    ensures !HasCycle(g)
  {
    if HasCycle(g) {
      var p :| Walk(g, p) && |p| >= 2 && p[0] == p[|p| - 1];
      assert p[0 + 1] in Deps(g, p[0]);
      var i :| 0 <= i < |order| && order[i] == p[0];
      var j := WalkFalls(g, order, p, i);
      assert false;
    }
  }

  // --- The search ----------------------------------------------------------------------

  /** The recursive search of _reject_cycles with its two mutable sets. */
  class CycleSearch {
    const graph: Graph
    const nodes: set<int>
    var visiting: set<int>
    var visited: set<int>
    ghost var order: seq<int>

    ghost predicate Valid()
      reads this
    {
      && (forall n, d :: n in graph && d in graph[n] ==> d in nodes)
      && visiting <= nodes && visiting !! visited
      && (forall n :: n in visited <==> n in order)
      && Finished(graph, order)
    }

    constructor (graph: Graph)
      ensures this.graph == graph && graph.Keys <= nodes && Valid()
      ensures visiting == visited == {} && order == []
    {
      this.graph := graph;
      nodes := graph.Keys + set n, d | n in graph && d in graph[n] :: d;
      visiting, visited, order := {}, {}, [];
    }

    /** `stack` is the walk of the calls in progress. A reported cycle is real; without one
        the node is finished and the stack is as before. */
    method Dfs(node: int, ghost stack: seq<int>) returns (cyclic: bool)
      requires Valid() && node in nodes
      requires forall n :: n in visiting <==> n in stack
      requires stack != [] ==> Walk(graph, stack) && node in Deps(graph, stack[|stack| - 1])
      modifies this
      ensures cyclic ==> HasCycle(graph)
      ensures !cyclic ==>
                && Valid() && visiting == old(visiting)
                && node in visited && old(visited) <= visited
      decreases nodes - visiting
    {
      if node in visiting {
        ghost var k :| 0 <= k < |stack| && stack[k] == node;
        ClosedWalk(stack, k, node);
        return true;
      }
      if node in visited {
        return false;
      }
      visiting := visiting + {node};
      ghost var longer := stack + [node];
      if stack != [] {
        WalkExtend(graph, stack, node);
      }
      var deps := Deps(graph, node);
      var i := 0;
      while i < |deps|
        invariant i <= |deps|
        invariant Valid() && visiting == old(visiting) + {node} && old(visited) <= visited
        invariant node !in visited
        invariant forall j :: 0 <= j < i ==> deps[j] in visited
      {
        assert deps[i] in graph[node];
        cyclic := Dfs(deps[i], longer);
        if cyclic {
          return;
        }
        i := i + 1;
      }
      visiting := visiting - {node};
      visited := visited + {node};
      FinishNode(node);
      order := order + [node];
      return false;
    }

    lemma ClosedWalk(stack: seq<int>, k: nat, node: int)
      requires k < |stack| && Walk(graph, stack) && stack[k] == node
      requires node in Deps(graph, stack[|stack| - 1])
      ensures HasCycle(graph)
    {
      WalkSuffix(graph, stack, k);
      WalkExtend(graph, stack[k..], node);
      var p := stack[k..] + [node];
      assert p[0] == p[|p| - 1];
    }

    lemma FinishNode(node: int)
      requires Finished(graph, order) && node !in order
      requires forall d :: d in Deps(graph, node) ==> d in order
      ensures Finished(graph, order + [node])
    {
      var longer := order + [node];
      forall i, d | 0 <= i < |longer| && d in Deps(graph, longer[i])
        ensures d in longer[..i]
      {
        assert longer[..i] == order[..i];
        if i == |order| {
          assert order[..i] == order;
        }
      }
    }
  }

  /** _reject_cycles on the graph itself: it reports a cycle exactly when there is one,
      whatever the graph and whatever order its nodes are visited in. */
  method RejectCycles(graph: Graph, nodes: seq<int>) returns (cyclic: bool)
    requires forall n :: n in graph <==> n in nodes
    ensures cyclic <==> HasCycle(graph)
  {
    var search := new CycleSearch(graph);
    var i := 0;
    while i < |nodes|
      invariant i <= |nodes|
      invariant search.graph == graph && graph.Keys <= search.nodes
      invariant search.Valid() && search.visiting == {}
      invariant forall j :: 0 <= j < i ==> nodes[j] in search.visited
    {
      assert nodes[i] in nodes;
      cyclic := search.Dfs(nodes[i], []);
      if cyclic {
        return;
      }
      i := i + 1;
    }
    FinishedAcyclic(graph, search.order);
    return false;
  }

  /** A graph whose dependencies all point to smaller numbers has no cycle. */
  lemma {:induction false} EarlierWalkFalls(g: Graph, p: seq<int>)
    requires Walk(g, p) && forall n, d :: n in g && d in g[n] ==> d < n
    ensures |p| >= 2 ==> p[|p| - 1] < p[0]
    decreases |p|
  {
    if |p| >= 2 {
      assert p[0 + 1] in Deps(g, p[0]);
      WalkSuffix(g, p, 1);
      EarlierWalkFalls(g, p[1..]);
    }
  }

  lemma EarlierAcyclic(g: Graph)
    requires forall n, d :: n in g && d in g[n] ==> d < n
    ensures !HasCycle(g)
  {
    if HasCycle(g) {
      var p :| Walk(g, p) && |p| >= 2 && p[0] == p[|p| - 1];
      EarlierWalkFalls(g, p);
      assert false;
    }
  }

  // --- Longest chains --------------------------------------------------------------------

  /** `d` is the length, in edges, of the longest chain of dependencies from n. */
  ghost predicate LongestChain(g: Graph, n: int, d: nat) {
    && (exists p :: WalkFrom(g, n, p) && |p| == d + 1)
    && (forall p :: WalkFrom(g, n, p) ==> |p| <= d + 1)
  }

  lemma NoDependencies(g: Graph, n: int)
    requires Deps(g, n) == []
    ensures LongestChain(g, n, 0)
  {
    assert WalkFrom(g, n, [n]);
    forall p | WalkFrom(g, n, p)
      ensures |p| <= 1
    {
      if |p| > 1 {
        FirstStep(g, p);
      }
    }
  }

  /** One more than the deepest dependency. */
  lemma OneMore(g: Graph, n: int, depth: map<int, nat>, best: int)
    requires best in Deps(g, n) && best in depth
    requires forall d :: d in Deps(g, n) ==> d in depth && LongestChain(g, d, depth[d]) && depth[d] <= depth[best]
    ensures LongestChain(g, n, depth[best] + 1)
  {
    var p :| WalkFrom(g, best, p) && |p| == depth[best] + 1;
    var longer := [n] + p;
    assert WalkFrom(g, n, longer) by {
      forall k | 0 <= k < |longer| - 1
        ensures longer[k + 1] in Deps(g, longer[k])
      {
        if k > 0 {
          assert longer[k] == p[k - 1] && longer[k + 1] == p[k - 1 + 1];
        }
      }
    }
    forall q | WalkFrom(g, n, q)
      ensures |q| <= depth[best] + 2
    {
      if |q| > 1 {
        assert q[0 + 1] in Deps(g, q[0]);
        WalkSuffix(g, q, 1);
        assert WalkFrom(g, q[1], q[1..]);
      }
    }
  }

  lemma LongestUnique(g: Graph, n: int, a: nat, b: nat)
    requires LongestChain(g, n, a) && LongestChain(g, n, b)
    ensures a == b
  {
    var p :| WalkFrom(g, n, p) && |p| == a + 1;
    var q :| WalkFrom(g, n, q) && |q| == b + 1;
  }

  // --- The level walk of the coordinator -----------------------------------------------

  /** The unseen part of a level: its dependencies form the next level. */
  function NextLevel(g: Graph, level: seq<int>, seen: set<int>): (r: (seq<int>, set<int>))
    decreases |level|
  {
    if level == [] then ([], seen)
    else if level[0] in seen then NextLevel(g, level[1..], seen)
    else
      var (next, all) := NextLevel(g, level[1..], seen + {level[0]});
      (Deps(g, level[0]) + next, all)
  }

  lemma {:induction false} NextLevelSound(g: Graph, level: seq<int>, seen: set<int>)
    ensures var (next, all) := NextLevel(g, level, seen);
            && seen <= all && (forall n :: n in all <==> n in seen || n in level)
            && (forall m :: m in next <==> exists n :: n in level && n !in seen && m in Deps(g, n))
            && (all == seen ==> next == [])
    decreases |level|
  {
    if level != [] {
      if level[0] in seen {
        NextLevelSound(g, level[1..], seen);
      } else {
        NextLevelSound(g, level[1..], seen + {level[0]});
        var (next, all) := NextLevel(g, level, seen);
        assert level[0] in all && level[0] !in seen;
      }
    }
  }

  lemma NewMember(small: set<int>, large: set<int>) returns (x: int)
    requires small < large
    ensures x in large && x !in small
  {
    assert !(large <= small);
    if forall y :: y in large ==> y in small {
      assert false;
    }
    x :| x in large && x !in small;
  }

  /** A level either meets something new or is the last one. */
  lemma LevelProgress(g: Graph, level: seq<int>, seen: set<int>, universe: set<int>)
    requires forall n :: n in level ==> n in universe
    requires forall n, d :: n in g && d in g[n] ==> d in universe
    ensures var (next, all) := NextLevel(g, level, seen);
            && (forall m :: m in next ==> m in universe)
            && ((all == seen && next == []) || universe - all < universe - seen)
  {
    NextLevelSound(g, level, seen);
    var all := NextLevel(g, level, seen).1;
    if all != seen {
      var x := NewMember(seen, all);
      assert x in universe - seen && x !in universe - all;
    }
  }

  /** How many levels the walk counts; `universe` holds every number it can meet. */
  function Levels(g: Graph, level: seq<int>, seen: set<int>, universe: set<int>): nat
    requires forall n :: n in level ==> n in universe
    requires forall n, d :: n in g && d in g[n] ==> d in universe
    decreases universe - seen, |level|
  {
    if level == [] then 0
    else
      LevelProgress(g, level, seen, universe);
      var (next, all) := NextLevel(g, level, seen);
      1 + Levels(g, next, all, universe)
  }

  method TaskDepth(g: Graph, n: int) returns (depth: nat)
    ensures var universe := Everything(g);
            (forall d :: d in Deps(g, n) ==> d in universe) && depth == Levels(g, Deps(g, n), {}, universe)
  {
    ghost var universe := Everything(g);
    depth := 0;
    var current, seen: set<int> := Deps(g, n), {};
    while current != []
      invariant forall d :: d in current ==> d in universe
      invariant depth + Levels(g, current, seen, universe) == Levels(g, Deps(g, n), {}, universe)
      decreases universe - seen, |current|
    {
      depth := depth + 1;
      var next: seq<int> := [];
      ghost var before := seen;
      var i := 0;
      while i < |current|
        invariant i <= |current|
        invariant next + NextLevel(g, current[i..], seen).0 == NextLevel(g, current, before).0
        invariant NextLevel(g, current[i..], seen).1 == NextLevel(g, current, before).1
      {
        assert current[i..][1..] == current[i + 1..];
        if current[i] !in seen {
          ghost var rest := NextLevel(g, current[i + 1..], seen + {current[i]}).0;
          assert next + (Deps(g, current[i]) + rest) == next + Deps(g, current[i]) + rest;
          next := next + Deps(g, current[i]);
          seen := seen + {current[i]};
        }
        i := i + 1;
      }
      assert next + [] == next;
      LevelProgress(g, current, before, universe);
      current := next;
    }
  }

  /** Everything on the k-th level is reached by a chain of k edges, so the walk never
      counts more levels than the longest chain has edges. */
  lemma {:induction false} LevelsAreChains(
    g: Graph, n: int, level: seq<int>, seen: set<int>, universe: set<int>, k: nat)
    requires forall m :: m in level ==> m in universe
    requires forall m, d :: m in g && d in g[m] ==> d in universe
    requires forall m :: m in level ==> exists p :: WalkFrom(g, n, p) && |p| == k + 2 && p[k + 1] == m
    ensures Levels(g, level, seen, universe) > 0 ==>
              exists p :: WalkFrom(g, n, p) && |p| == k + 1 + Levels(g, level, seen, universe)
    decreases universe - seen, |level|
  {
    if level != [] {
      NextLevelSound(g, level, seen);
      LevelProgress(g, level, seen, universe);
      var (next, all) := NextLevel(g, level, seen);
      forall m | m in next
        ensures exists p :: WalkFrom(g, n, p) && |p| == k + 3 && p[k + 2] == m
      {
        var x :| x in level && m in Deps(g, x);
        var p :| WalkFrom(g, n, p) && |p| == k + 2 && p[k + 1] == x;
        WalkExtend(g, p, m);
        assert WalkFrom(g, n, p + [m]) && |p + [m]| == k + 3 && (p + [m])[k + 2] == m;
      }
      LevelsAreChains(g, n, next, all, universe, k + 1);
      if next == [] {
        var p :| WalkFrom(g, n, p) && |p| == k + 2 && p[k + 1] == level[0];
      }
    }
  }

  /** The depth the coordinator persists is the length of some chain. */
  lemma TaskDepthIsChain(g: Graph, n: int)
    ensures var universe := Everything(g);
            && (forall d :: d in Deps(g, n) ==> d in universe)
            && exists p :: WalkFrom(g, n, p) && |p| == 1 + Levels(g, Deps(g, n), {}, universe)
  {
    var universe := Everything(g);
    forall m | m in Deps(g, n)
      ensures exists p :: WalkFrom(g, n, p) && |p| == 2 && p[1] == m
    {
      assert WalkFrom(g, n, [n, m]);
    }
    LevelsAreChains(g, n, Deps(g, n), {}, universe, 0);
    assert WalkFrom(g, n, [n]);
  }

  /** So it never exceeds the longest chain. */
  lemma TaskDepthAtMostLongest(g: Graph, n: int, longest: nat)
    requires LongestChain(g, n, longest)
    ensures var universe := Everything(g);
            (forall d :: d in Deps(g, n) ==> d in universe) && Levels(g, Deps(g, n), {}, universe) <= longest
  {
    TaskDepthIsChain(g, n);
    var universe := Everything(g);
    var p :| WalkFrom(g, n, p) && |p| == 1 + Levels(g, Deps(g, n), {}, universe);
  }

  // --- When the two depths agree ---------------------------------------------------------

  /** A walk of k edges leads from n to x. */
  ghost predicate Reaches(g: Graph, n: int, x: int, k: nat) {
    exists p :: WalkFrom(g, n, p) && |p| == k + 1 && p[k] == x
  }

  /** No walk from n to x, other than standing still, has fewer than k edges. */
  ghost predicate NoShorter(g: Graph, n: int, x: int, k: nat) {
    forall e :: 1 <= e < k ==> !Reaches(g, n, x, e)
  }

  ghost predicate Nearest(g: Graph, n: int, x: int, k: nat) {
    Reaches(g, n, x, k) && NoShorter(g, n, x, k)
  }

  /** The level walk counts a k-th level when a number it first meets on level k - 1 has a
      dependency; level 0 is the task itself. */
  ghost predicate Counted(g: Graph, n: int, k: nat) {
    k >= 1 && exists x :: Nearest(g, n, x, k - 1) && Deps(g, x) != []
  }

  lemma ReachesMore(g: Graph, n: int, x: int, m: int, k: nat)
    requires Reaches(g, n, x, k) && m in Deps(g, x)
    ensures Reaches(g, n, m, k + 1)
  {
    var p :| WalkFrom(g, n, p) && |p| == k + 1 && p[k] == x;
    WalkExtend(g, p, m);
    assert WalkFrom(g, n, p + [m]) && (p + [m])[k + 1] == m;
  }

  lemma ReachesLess(g: Graph, n: int, m: int, k: nat) returns (x: int)
    requires Reaches(g, n, m, k + 1)
    ensures Reaches(g, n, x, k) && m in Deps(g, x)
  {
    var p :| WalkFrom(g, n, p) && |p| == k + 2 && p[k + 1] == m;
    x := p[k];
    assert WalkFrom(g, n, p[..k + 1]) && p[..k + 1][k] == x;
  }

  /** The last step of a nearest walk starts from a number that was met one level before. */
  lemma NearestStep(g: Graph, n: int, m: int, k: nat) returns (x: int)
    requires Nearest(g, n, m, k + 1)
    ensures Nearest(g, n, x, k) && m in Deps(g, x)
  {
    x := ReachesLess(g, n, m, k);
    forall e | 1 <= e < k
      ensures !Reaches(g, n, x, e)
    {
      if Reaches(g, n, x, e) {
        ReachesMore(g, n, x, m, e);
      }
    }
  }

  lemma {:induction false} CountedDown(g: Graph, n: int, j: nat, k: nat)
    requires 1 <= j <= k && Counted(g, n, k)
    ensures Counted(g, n, j)
    decreases k - j
  {
    if j < k {
      var m :| Nearest(g, n, m, k - 1) && Deps(g, m) != [];
      var x := NearestStep(g, n, m, k - 2);
      assert Counted(g, n, k - 1);
      CountedDown(g, n, j, k - 1);
    }
  }

  /** A dependency of a number first met on level k. */
  ghost predicate Below(g: Graph, n: int, m: int, k: nat) {
    exists x :: Nearest(g, n, x, k) && m in Deps(g, x)
  }

  /** The walk stands at level k: what it has seen and what the level holds. */
  ghost predicate AtLevel(g: Graph, n: int, level: seq<int>, seen: set<int>, k: nat) {
    && k >= 1
    && (forall x :: x in seen <==> exists e: nat :: 1 <= e < k && Reaches(g, n, x, e))
    && (forall m :: m in level <==> Below(g, n, m, k - 1))
  }

  /** A member of level k that was not seen before is one whose nearest walk has k edges. */
  lemma FreshIsNearest(g: Graph, n: int, level: seq<int>, seen: set<int>, k: nat, x: int)
    requires AtLevel(g, n, level, seen, k)
    ensures x in level && x !in seen <==> Nearest(g, n, x, k)
  {
    if x in level && x !in seen {
      var y :| Nearest(g, n, y, k - 1) && x in Deps(g, y);
      ReachesMore(g, n, y, x, k - 1);
    }
    if Nearest(g, n, x, k) {
      var y := NearestStep(g, n, x, k - 1);
    }
  }

  lemma NextAtLevel(g: Graph, n: int, level: seq<int>, seen: set<int>, k: nat)
    requires AtLevel(g, n, level, seen, k)
    ensures AtLevel(g, n, NextLevel(g, level, seen).0, NextLevel(g, level, seen).1, k + 1)
  {
    hide Nearest, Reaches;
    var (next, all) := NextLevel(g, level, seen);
    NextLevelSound(g, level, seen);
    forall x
      ensures x in all <==> exists e: nat :: 1 <= e < k + 1 && Reaches(g, n, x, e)
    {
      SeenOrFresh(g, n, level, seen, k, x);
    }
    forall m
      ensures m in next <==> Below(g, n, m, k)
    {
      if m in next {
        var x :| x in level && x !in seen && m in Deps(g, x);
        FreshIsNearest(g, n, level, seen, k, x);
      }
      if x :| Nearest(g, n, x, k) && m in Deps(g, x) {
        FreshIsNearest(g, n, level, seen, k, x);
      }
    }
  }

  lemma SeenOrFresh(g: Graph, n: int, level: seq<int>, seen: set<int>, k: nat, x: int)
    requires AtLevel(g, n, level, seen, k)
    ensures x in seen || x in level <==> exists e: nat :: 1 <= e < k + 1 && Reaches(g, n, x, e)
  {
    FreshIsNearest(g, n, level, seen, k, x);
    if x in level && x !in seen {
      assert Reaches(g, n, x, k);
    }
    if e: nat :| 1 <= e < k + 1 && Reaches(g, n, x, e) {
      if x !in seen {
        assert e == k && Nearest(g, n, x, k);
      }
    }
  }

  /** From level k on, the walk counts exactly the levels that are there. */
  lemma {:induction false} LevelsCount(
    g: Graph, n: int, level: seq<int>, seen: set<int>, universe: set<int>, k: nat, j: nat)
    requires forall m :: m in level ==> m in universe
    requires forall m, d :: m in g && d in g[m] ==> d in universe
    requires AtLevel(g, n, level, seen, k) && j >= k
    ensures j < k + Levels(g, level, seen, universe) <==> Counted(g, n, j)
    decreases universe - seen, |level|
  {
    hide Nearest, NextLevel;
    LevelThere(g, n, level, seen, k);
    if level == [] {
      if Counted(g, n, j) {
        CountedDown(g, n, k, j);
      }
    } else if j > k {
      LevelProgress(g, level, seen, universe);
      NextAtLevel(g, n, level, seen, k);
      var (next, all) := NextLevel(g, level, seen);
      LevelsCount(g, n, next, all, universe, k + 1, j);
    }
  }

  lemma LevelThere(g: Graph, n: int, level: seq<int>, seen: set<int>, k: nat)
    requires AtLevel(g, n, level, seen, k)
    ensures level != [] <==> Counted(g, n, k)
  {
    hide Nearest;
    if level != [] {
      assert level[0] in level && Below(g, n, level[0], k - 1);
    }
    if Counted(g, n, k) {
      var x :| Nearest(g, n, x, k - 1) && Deps(g, x) != [];
      assert Below(g, n, Deps(g, x)[0], k - 1);
      assert Deps(g, x)[0] in level;
    }
  }

  lemma FirstAtLevel(g: Graph, n: int)
    ensures AtLevel(g, n, Deps(g, n), {}, 1)
  {
    assert WalkFrom(g, n, [n]);
    forall m
      ensures m in Deps(g, n) <==> Below(g, n, m, 0)
    {
      if m in Deps(g, n) {
        assert Reaches(g, n, n, 0);
        assert Nearest(g, n, n, 0);
      }
    }
  }

  function Everything(g: Graph): set<int> {
    set m, d | m in g && d in g[m] :: d
  }

  /** On any graph, cyclic ones included: the depth the coordinator stores is the number of
      levels that exist. */
  lemma TaskDepthIs(g: Graph, n: int, k: nat)
    requires k >= 1
    ensures (forall d :: d in Deps(g, n) ==> d in Everything(g))
            && (k <= Levels(g, Deps(g, n), {}, Everything(g)) <==> Counted(g, n, k))
  {
    FirstAtLevel(g, n);
    LevelsCount(g, n, Deps(g, n), {}, Everything(g), 1, k);
  }

  /** The stored depth is the longest chain exactly when some longest chain leaves its last
      but one task by no detour: no other way from n to that task is shorter. */
  lemma DepthsAgree(g: Graph, n: int, longest: nat)
    requires LongestChain(g, n, longest) && longest >= 1
    ensures (forall d :: d in Deps(g, n) ==> d in Everything(g))
            && (Levels(g, Deps(g, n), {}, Everything(g)) == longest
                <==> exists p :: WalkFrom(g, n, p) && |p| == longest + 1
                                 && NoShorter(g, n, p[longest - 1], longest - 1))
  {
    TaskDepthIs(g, n, longest);
    TaskDepthAtMostLongest(g, n, longest);
    if Counted(g, n, longest) {
      var x :| Nearest(g, n, x, longest - 1) && Deps(g, x) != [];
      var p :| WalkFrom(g, n, p) && |p| == longest && p[longest - 1] == x;
      WalkExtend(g, p, Deps(g, x)[0]);
      assert WalkFrom(g, n, p + [Deps(g, x)[0]]) && (p + [Deps(g, x)[0]])[longest - 1] == x;
    }
    if p :| WalkFrom(g, n, p) && |p| == longest + 1 && NoShorter(g, n, p[longest - 1], longest - 1) {
      var x := p[longest - 1];
      assert WalkFrom(g, n, p[..longest]) && p[..longest][longest - 1] == x;
      assert p[longest - 1 + 1] in Deps(g, x);
      assert Nearest(g, n, x, longest - 1);
    }
  }

  /** The plan 4 -> 2, 3; 3 -> 2; 2 -> 1: the chain 4, 3, 2, 1 has three edges, but task 2 is
      also a direct dependency, and the level walk counts two levels. */
  const DETOUR: Graph := map[1 := [], 2 := [1], 3 := [2], 4 := [2, 3]]

  lemma {:induction false} DetourWalk(p: seq<int>)
    requires Walk(DETOUR, p) && 1 <= p[0] <= 4
    ensures |p| <= p[0] && (|p| == 4 ==> p == [4, 3, 2, 1])
    decreases |p|
  {
    if |p| > 1 {
      FirstStep(DETOUR, p);
      WalkSuffix(DETOUR, p, 1);
      DetourWalk(p[1..]);
      if |p| == 4 {
        assert p == [p[0]] + p[1..];
        FirstStep(DETOUR, p[1..]);
        WalkSuffix(DETOUR, p, 2);
        FirstStep(DETOUR, p[2..]);
      }
    }
  }

  lemma TaskDepthCanFallShort()
    ensures LongestChain(DETOUR, 4, 3)
    ensures (forall d :: d in Deps(DETOUR, 4) ==> d in Everything(DETOUR))
            && Levels(DETOUR, Deps(DETOUR, 4), {}, Everything(DETOUR)) == 2
  {
    assert WalkFrom(DETOUR, 4, [4, 3, 2, 1]);
    forall p | WalkFrom(DETOUR, 4, p)
      ensures |p| <= 4
    {
      DetourWalk(p);
    }
    DepthsAgree(DETOUR, 4, 3);
    assert WalkFrom(DETOUR, 4, [4, 2]) && [4, 2][1] == 2;
    assert Reaches(DETOUR, 4, 2, 1);
    forall p | WalkFrom(DETOUR, 4, p) && |p| == 4
      ensures Reaches(DETOUR, 4, p[2], 1)
    {
      DetourWalk(p);
    }
    assert forall p :: WalkFrom(DETOUR, 4, p) && |p| == 4 ==> !NoShorter(DETOUR, 4, p[2], 2);
    TaskDepthIs(DETOUR, 4, 2);
    assert Nearest(DETOUR, 4, 2, 2 - 1) && Deps(DETOUR, 2) != [];
    assert Counted(DETOUR, 4, 2);
    TaskDepthAtMostLongest(DETOUR, 4, 3);
  }
}
