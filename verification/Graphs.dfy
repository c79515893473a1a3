/** Dependency graphs, their cycles, and the three cycle detectors of the contracts:
    the depth-first walk over all dependencies, and the two pointer walks. */
module Graphs {

  datatype Option<+T> = None | Some(value: T)

  type Graph = map<string, set<string>>

  function Members(s: seq<string>): set<string> { set x | x in s }

  predicate NoRepeats(s: seq<string>) { forall i, j :: 0 <= i < j < |s| ==> s[i] != s[j] }

  predicate Closed(g: Graph) {
    forall v :: v in g ==> g[v] <= g.Keys
  }

  /** A numbering in which every vertex comes after what it depends on. */
  ghost predicate Ranks(g: Graph, rank: map<string, nat>) {
    && g.Keys <= rank.Keys
    && forall v, d :: v in g && d in g[v] ==> d in rank && rank[d] < rank[v]
  }

  ghost predicate Acyclic(g: Graph) {
    exists rank :: Ranks(g, rank)
  }

  ghost function Rank(g: Graph): (rank: map<string, nat>)
    requires Acyclic(g)
    ensures Ranks(g, rank)
  {
    var rank :| Ranks(g, rank);
    rank
  }

  /** A path that follows dependencies. */
  ghost predicate Chain(g: Graph, path: seq<string>) {
    && path != []
    && (forall i :: 0 <= i < |path| ==> path[i] in g)
    && forall i, j :: 0 <= i < j < |path| && j == i + 1 ==> path[j] in g[path[i]]
  }

  ghost predicate Cycle(g: Graph, path: seq<string>) {
    Chain(g, path) && |path| >= 2 && path[0] == path[|path| - 1]
  }

  ghost predicate HasCycle(g: Graph) {
    exists path :: Cycle(g, path)
  }

  lemma {:induction false} ChainDescends(g: Graph, rank: map<string, nat>, path: seq<string>)
    requires Ranks(g, rank) && Chain(g, path)
    ensures rank[path[0]] >= rank[path[|path| - 1]] + |path| - 1
  {
    if |path| > 1 {
      var tail := path[1..];
      ChainDescends(g, rank, tail);
      assert path[1] in g[path[0]];
    }
  }

  lemma {:induction false} CycleIsNotAcyclic(g: Graph, path: seq<string>)
    requires Cycle(g, path)
    ensures !Acyclic(g)
  {
    if Acyclic(g) {
      ChainDescends(g, Rank(g), path);
    }
  }

  lemma {:induction false} Subgraph(g: Graph, h: Graph)
    requires h.Keys <= g.Keys
    requires forall v :: v in h ==> h[v] <= g[v]
    requires Acyclic(g)
    ensures Acyclic(h)
  {
    assert Ranks(h, Rank(g));
  }

  // ----- sets in which everything depends on something inside: every one holds a cycle

  ghost predicate Trapped(g: Graph, s: set<string>) {
    s != {} && s <= g.Keys && forall v :: v in s ==> g[v] * s != {}
  }

  lemma {:induction false} TrappedChain(g: Graph, s: set<string>, n: nat) returns (path: seq<string>)
    requires Trapped(g, s)
    ensures Chain(g, path) && |path| == n + 1
    ensures forall i :: 0 <= i < |path| ==> path[i] in s
  {
    if n == 0 {
      var v :| v in s;
      path := [v];
    } else {
      var front := TrappedChain(g, s, n - 1);
      var d :| d in g[front[n - 1]] * s;
      path := front + [d];
      assert path[n - 1] == front[n - 1];
    }
  }

  lemma {:induction false} Pigeonhole(path: seq<string>, s: set<string>)
    requires |path| > |s|
    requires forall i :: 0 <= i < |path| ==> path[i] in s
    ensures exists i, j :: 0 <= i < j < |path| && path[i] == path[j]
  {
    var last := |path| - 1;
    if i :| 0 <= i < last && path[i] == path[last] {
    } else {
      Pigeonhole(path[..last], s - {path[last]});
      var i, j :| 0 <= i < j < last && path[..last][i] == path[..last][j];
      assert path[i] == path[j];
    }
  }

  lemma {:induction false} RepeatIsCycle(g: Graph, path: seq<string>, i: nat, j: nat)
    requires Chain(g, path) && i < j < |path| && path[i] == path[j]
    ensures Cycle(g, path[i..j + 1])
  {
  }

  lemma {:induction false} TrappedHasCycle(g: Graph, s: set<string>)
    requires Trapped(g, s)
    ensures HasCycle(g)
  {
    var long := TrappedChain(g, s, |s|);
    Pigeonhole(long, s);
    var i, j :| 0 <= i < j < |long| && long[i] == long[j];
    RepeatIsCycle(g, long, i, j);
  }

  /** A chain in an acyclic graph visits no vertex twice. */
  lemma {:induction false} ChainIsShort(g: Graph, path: seq<string>)
    requires Acyclic(g) && Chain(g, path)
    ensures |path| <= |g|
  {
    if |path| > |g.Keys| {
      Pigeonhole(path, g.Keys);
      var i, j :| 0 <= i < j < |path| && path[i] == path[j];
      RepeatIsCycle(g, path, i, j);
      CycleIsNotAcyclic(g, path[i..j + 1]);
    }
  }

  // ----- depth-first cycle detection

  /** The finished vertices of a depth-first walk are ranked. */
  ghost predicate Finished(g: Graph, visited: set<string>, rank: map<string, nat>) {
    && rank.Keys == visited <= g.Keys
    && (forall v :: v in visited ==> rank[v] < |visited|)
    && forall v, d :: v in visited && d in g[v] ==> d in visited && rank[d] < rank[v]
  }

  lemma {:induction false} FinishOne(g: Graph, visited: set<string>, rank: map<string, nat>, v: string)
    requires Finished(g, visited, rank)
    requires v in g && v !in visited && g[v] <= visited
    ensures Finished(g, visited + {v}, rank[v := |visited|])
  {
  }

  /** The open calls, outermost first, are a dependency chain that ends just above v. */
  ghost predicate OpenCalls(g: Graph, stack: seq<string>, v: string) {
    stack != [] ==> Chain(g, stack) && v in g[stack[|stack| - 1]]
  }

  lemma {:induction false} OpenOne(g: Graph, stack: seq<string>, v: string)
    requires v in g && OpenCalls(g, stack, v)
    ensures Chain(g, stack + [v])
    ensures forall d :: d in g[v] ==> OpenCalls(g, stack + [v], d)
  {
  }

  /** One run of the depth-first validator: `visiting` holds the open calls, `visited` the
      finished ones. */
  class DependencyWalk {
    const graph: Graph
    var visiting: set<string>
    var visited: set<string>
    ghost var rank: map<string, nat>

    ghost predicate Valid()
      reads this
    {
      && Closed(graph)
      && Finished(graph, visited, rank)
      && visiting !! visited && visiting <= graph.Keys
    }

    constructor (g: Graph)
      requires Closed(g)
      ensures Valid() && graph == g && visiting == {} && visited == {}
    {
      graph, visiting, visited, rank := g, {}, {}, map[];
    }

    method Visit(nodeId: string, ghost stack: seq<string>) returns (ok: bool)
      requires Valid() && nodeId in graph
      requires OpenCalls(graph, stack, nodeId)
      requires forall v :: v in visiting ==> v in stack
      modifies this
      ensures ok ==> Valid() && visiting == old(visiting)
      ensures ok ==> old(visited) <= visited && nodeId in visited
      ensures !ok ==> HasCycle(graph)
      decreases graph.Keys - visiting
    {
      if nodeId in visited {
        return true;
      }
      if nodeId in visiting {
        CloseCycle(graph, stack, nodeId);
        return false;
      }
      OpenOne(graph, stack, nodeId);
      visiting := visiting + {nodeId};
      var rest := graph[nodeId];
      while rest != {}
        invariant Valid()
        invariant visiting == old(visiting) + {nodeId}
        invariant old(visited) <= visited
        invariant rest <= graph[nodeId] && graph[nodeId] - rest <= visited
        decreases rest
      {
        var dependency :| dependency in rest;
        ok := Visit(dependency, stack + [nodeId]);
        if !ok {
          return;
        }
        rest := rest - {dependency};
      }
      Leave(nodeId);
      return true;
    }

    method Leave(nodeId: string)
      requires Valid() && nodeId in visiting && graph[nodeId] <= visited
      modifies this
      ensures Valid()
      ensures visiting == old(visiting) - {nodeId} && visited == old(visited) + {nodeId}
    {
      FinishOne(graph, visited, rank, nodeId);
      visiting := visiting - {nodeId};
      rank := rank[nodeId := |visited|];
      visited := visited + {nodeId};
    }
  }

  lemma {:induction false} CloseCycle(g: Graph, stack: seq<string>, v: string)
    requires OpenCalls(g, stack, v) && v in stack
    ensures HasCycle(g)
  {
    var i :| 0 <= i < |stack| && stack[i] == v;
    var path := stack[i..] + [stack[i]];
    assert Cycle(g, path);
  }

  /** The depth-first validator accepts exactly the acyclic graphs. */
  method ValidateDependencyGraph(dependencies: Graph) returns (ok: bool)
    requires Closed(dependencies)
    ensures ok <==> Acyclic(dependencies)
    ensures !ok ==> HasCycle(dependencies)
  {
    var walk := new DependencyWalk(dependencies);
    var rest := dependencies.Keys;
    while rest != {}
      invariant walk.graph == dependencies && walk.Valid() && walk.visiting == {}
      invariant rest <= dependencies.Keys && dependencies.Keys - rest <= walk.visited
      invariant fresh(walk)
      decreases rest
    {
      var nodeId :| nodeId in rest;
      ok := walk.Visit(nodeId, []);
      if !ok {
        ghost var path :| Cycle(dependencies, path);
        CycleIsNotAcyclic(dependencies, path);
        return;
      }
      rest := rest - {nodeId};
    }
    assert Ranks(dependencies, walk.rank);
    return true;
  }

  // ----- pointer walks

  /** The graph of a pointer map: each key depends on what it points at. */
  function PointerGraph(next: map<string, string>): Graph {
    map v | v in next.Keys + next.Values :: if v in next then {next[v]} else {}
  }

  /** A walk that follows the pointers from its first vertex until they end. */
  ghost predicate Walk(next: map<string, string>, path: seq<string>) {
    && path != []
    && (forall i :: 0 <= i < |path| - 1 ==> path[i] in next)
    && (forall i, j :: 0 <= i < j < |path| && j == i + 1 ==> path[j] == next[path[i]])
    && path[|path| - 1] !in next
  }

  lemma {:induction false} WalkIsUnique(next: map<string, string>, p: seq<string>, q: seq<string>)
    requires Walk(next, p) && Walk(next, q) && p[0] == q[0]
    ensures p == q
  {
    if |p| > 1 && |q| > 1 {
      assert p[1] == next[p[0]] && q[1] == next[q[0]];
      WalkTail(next, p);
      WalkTail(next, q);
      WalkIsUnique(next, p[1..], q[1..]);
      assert p == [p[0]] + p[1..] && q == [q[0]] + q[1..];
    }
  }

  lemma {:induction false} WalkTail(next: map<string, string>, p: seq<string>)
    requires Walk(next, p) && |p| > 1
    ensures Walk(next, p[1..])
  {
  }

  /** The loop that chases pointers from each start and fails on a revisited vertex: it is
      the instance walk of the program contract. It accepts exactly when the pointer map,
      read as a dependency graph, has no cycle. */
  method FollowPointers(next: map<string, string>) returns (ok: bool)
    ensures ok <==> Acyclic(PointerGraph(next))
  {
    ghost var walks: map<string, seq<string>> := map[];
    var starts := next.Keys;
    while starts != {}
      invariant starts <= next.Keys
      invariant walks.Keys == next.Keys - starts
      invariant forall v :: v in walks ==> Walk(next, walks[v]) && walks[v][0] == v
      decreases starts
    {
      var start :| start in starts;
      var visited: set<string> := {};
      var current := start;
      ghost var path := [start];
      while current in next
        invariant Reached(next, start, current, visited, path)
        decreases next.Keys - visited
      {
        if current in visited {
          RevisitIsCycle(next, start, current, visited, path);
          return false;
        }
        visited := visited + {current};
        path := path + [next[current]];
        current := next[current];
      }
      walks := walks[start := path];
      starts := starts - {start};
    }
    WalksRank(next, walks);
    return true;
  }

  /** The pointers of a parent table, whose roots carry no parent. */
  function Pointers(parents: map<string, Option<string>>): map<string, string> {
    map v | v in parents && parents[v].Some? :: parents[v].value
  }

  /** The parent walk of the program and component-graph contracts: climb from every vertex
      to its root and fail on a revisited vertex. */
  method ClimbParents(parents: map<string, Option<string>>) returns (ok: bool)
    requires forall v :: v in parents && parents[v].Some? ==> parents[v].value in parents
    ensures ok <==> Acyclic(PointerGraph(Pointers(parents)))
  {
    ghost var next := Pointers(parents);
    ghost var walks: map<string, seq<string>> := map[];
    var starts := parents.Keys;
    while starts != {}
      invariant starts <= parents.Keys
      invariant walks.Keys == parents.Keys - starts
      invariant forall v :: v in walks ==> Walk(next, walks[v]) && walks[v][0] == v
      decreases starts
    {
      var start :| start in starts;
      var visited: set<string> := {};
      var current := Some(start);
      ghost var path := [start];
      while current.Some?
        invariant visited <= parents.Keys
        invariant current.Some? ==> current.value in parents && Reached(next, start, current.value, visited, path)
        invariant current.None? ==> Walk(next, path) && path[0] == start
        decreases parents.Keys - visited, current.Some?
      {
        if current.value in visited {
          RevisitIsCycle(next, start, current.value, visited, path);
          return false;
        }
        visited := visited + {current.value};
        if parents[current.value].Some? {
          path := path + [parents[current.value].value];
        }
        current := parents[current.value];
      }
      walks := walks[start := path];
      starts := starts - {start};
    }
    WalksRank(next, map v | v in next :: walks[v]);
    return true;
  }

  /** What the pointer walk knows while it runs. */
  ghost predicate Reached(next: map<string, string>, start: string, current: string,
                          visited: set<string>, path: seq<string>) {
    && path != [] && path[0] == start && path[|path| - 1] == current
    && (forall i :: 0 <= i < |path| - 1 ==> path[i] in next)
    && (forall i, j :: 0 <= i < j < |path| && j == i + 1 ==> path[j] == next[path[i]])
    && (forall i :: 0 <= i < |path| - 1 ==> path[i] in visited)
    && (forall v :: v in visited ==> v in next && v in path[..|path| - 1])
  }

  lemma {:induction false} RevisitIsCycle(next: map<string, string>, start: string, current: string,
                       visited: set<string>, path: seq<string>)
    requires Reached(next, start, current, visited, path)
    requires current in visited
    ensures !Acyclic(PointerGraph(next))
  {
    var g := PointerGraph(next);
    var i :| 0 <= i < |path| - 1 && path[i] == current;
    var loop := path[i..];
    CycleIsNotAcyclic(g, loop);
  }

  lemma {:induction false} WalksRank(next: map<string, string>, walks: map<string, seq<string>>)
    requires walks.Keys == next.Keys
    requires forall v :: v in walks ==> Walk(next, walks[v]) && walks[v][0] == v
    ensures Acyclic(PointerGraph(next))
  {
    var g := PointerGraph(next);
    var rank: map<string, nat> := map v | v in g :: if v in walks then |walks[v]| else 0;
    forall v, d | v in g && d in g[v] ensures d in rank && rank[d] < rank[v] {
      var w := walks[v];
      assert |w| > 1 && w[1] == next[w[0]];
      if d in walks {
        WalkTail(next, w);
        WalkIsUnique(next, w[1..], walks[d]);
      }
    }
    assert Ranks(g, rank);
  }
}
