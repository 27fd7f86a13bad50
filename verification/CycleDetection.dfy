/** Depth-first cycle detection, as the plan validator and the task planner do it. */
module CycleDetection {
  import opened Domain
  import opened Graph

  datatype Node = Node(id: Id, deps: seq<Id>)

  /** `[d for d in deps if d != id]`. */
  function WithoutSelf(id: Id, deps: seq<Id>): (r: seq<Id>)
    ensures forall d :: d in r <==> d in deps && d != id
  {
    if deps == [] then []
    else
      assert deps == [deps[0]] + deps[1..];
      (if deps[0] == id then [] else [deps[0]]) + WithoutSelf(id, deps[1..])
  }

  /** The graph a list of actions spells, later entries overriding earlier ones of
      the same id. */
  function GraphOf(nodes: seq<Node>): Graph {
    if nodes == [] then map[]
    else GraphOf(nodes[..|nodes| - 1])[nodes[|nodes| - 1].id := nodes[|nodes| - 1].deps]
  }

  /** The same graph without self-edges. */
  function SelfFree(g: Graph): Graph {
    map x | x in g :: WithoutSelf(x, g[x])
  }

  // ------------------------------------------------------- finishing order

  /** An order in which every node comes after all its known dependencies. */
  predicate Topological(g: Graph, order: seq<Id>) {
    forall i | 0 <= i < |order| && order[i] in g :: forall d | d in g[order[i]] && d in g :: d in order[..i]
  }

  /** Following a path walks strictly down a topological order. */
  lemma {:induction false} PathDescends(g: Graph, order: seq<Id>, p: seq<Id>, i: nat) returns (j: nat)
    requires Topological(g, order) && Path(g, p) && i < |order| && order[i] == p[0]
    requires forall k | 0 <= k < |p| :: p[k] in g
    ensures j <= i && j < |order| && order[j] == p[|p| - 1]
    ensures |p| > 1 ==> j < i
    decreases |p|
  {
    if |p| == 1 {
      j := i;
    } else {
      var n := |p| - 1;
      var k := PathDescends(g, order, p[..n], i);
      assert Edge(g, p[n - 1], p[n]);
      assert p[n] in order[..k];
      j :| 0 <= j < k && order[j] == p[n];
    }
  }

  lemma {:induction false} NothingReturns(g: Graph, order: seq<Id>, p: seq<Id>, i: nat)
    requires Topological(g, order) && ClosedPath(g, p) && i < |order| && order[i] == p[0]
    ensures false
    decreases i
  {
    forall k | 0 <= k < |p| ensures p[k] in g {
      if k + 1 < |p| { assert Edge(g, p[k], p[k + 1]); } else { assert Edge(g, p[0], p[1]); }
    }
    var j := PathDescends(g, order, p, i);
    NothingReturns(g, order, p, j);
  }

  /** A graph all of whose nodes can be put in topological order has no cycle. */
  lemma TopologicalAcyclic(g: Graph, order: seq<Id>)
    requires Topological(g, order) && forall x | x in g :: x in order
    ensures Acyclic(g)
  {
    forall p ensures !ClosedPath(g, p) {
      if ClosedPath(g, p) {
        assert Edge(g, p[0], p[1]);
        var i :| 0 <= i < |order| && order[i] == p[0];
        NothingReturns(g, order, p, i);
        assert false;
      }
    }
  }

  lemma TopologicalExtends(g: Graph, order: seq<Id>, x: Id)
    requires Topological(g, order) && (x in g ==> forall d | d in g[x] && d in g :: d in order)
    ensures Topological(g, order + [x])
  {
    var longer := order + [x];
    forall i | 0 <= i < |longer| && longer[i] in g ensures forall d | d in g[longer[i]] && d in g :: d in longer[..i] {
      assert longer[..i] == order[..i];
      if i == |order| { assert order[..i] == order; }
    }
  }

  // ---------------------------------------------------- the plan validator's

  function IndexOf(xs: seq<Id>, x: Id): (i: nat)
    requires x in xs
    ensures i < |xs| && xs[i] == x && x !in xs[..i]
  {
    if xs[0] == x then 0
    else
      var j := IndexOf(xs[1..], x);
      assert forall k | 0 < k < j + 1 :: xs[k] == xs[1..][..j][k - 1];
      j + 1
  }

  lemma PathExtends(g: Graph, p: seq<Id>, x: Id)
    requires p == [] || (Path(g, p) && Edge(g, p[|p| - 1], x))
    ensures Path(g, p + [x])
  {
  }

  /** Meeting a node of the current path again closes a path. */
  lemma TrailCloses(g: Graph, p: seq<Id>, x: Id)
    requires x in p && Path(g, p) && Edge(g, p[|p| - 1], x)
    ensures ClosedPath(g, p[IndexOf(p, x)..] + [x])
  {
    var closed := p[IndexOf(p, x)..] + [x];
    assert forall k | 0 < k < |closed| :: Edge(g, closed[k - 1], closed[k]);
  }

  /** `graph`, `visiting`, `visited` and `path` of the validator's search;
      `finished` is the order in which nodes were added to `visited`. */
  class Search {
    const graph: Graph
    var visiting: set<Id>
    var visited: set<Id>
    var path: seq<Id>
    ghost var finished: seq<Id>

    ghost predicate Valid()
      reads this
    {
      && (path == [] || Path(graph, path))
      && visiting == (set x | x in path)
      && visiting <= graph.Keys
      && visited == (set x | x in finished)
      && Topological(graph, finished)
    }

    constructor (graph: Graph)
      ensures this.graph == graph && Valid() && path == [] && visited == {}
    {
      this.graph := graph;
      visiting, visited, path, finished := {}, {}, [], [];
    }

    /** Either everything reachable from `node` gets finished, with the search's own
        state as it was, or a real closed dependency path is returned. */
    method Visit(node: Id) returns (cycle: Option<seq<Id>>)
      requires Valid() && node in graph
      requires path == [] || Edge(graph, path[|path| - 1], node)
      modifies this
      ensures cycle.None? ==> Valid() && path == old(path) && node in visited && old(visited) <= visited
      ensures cycle.Some? ==> ClosedPath(graph, cycle.value)
      decreases graph.Keys - visiting
    {
      if node in visited { return None; }
      if node in visiting {
        var i := IndexOf(path, node);
        TrailCloses(graph, path, node);
        return Some(path[i..] + [node]);
      }
      visiting, path := visiting + {node}, path + [node];
      PathExtends(graph, old(path), node);
      var deps := graph[node];
      for k := 0 to |deps|
        invariant Valid() && path == old(path) + [node] && old(visited) <= visited && visiting == old(visiting) + {node}
        invariant forall j | 0 <= j < k && deps[j] in graph :: deps[j] in visited
      {
        if deps[k] in graph {
          cycle := Visit(deps[k]);
          if cycle.Some? { return; }
        }
      }
      path := path[..|path| - 1];
      assert path == old(path);
      visiting, visited := visiting - {node}, visited + {node};
      TopologicalExtends(graph, finished, node);
      finished := finished + [node];
      return None;
    }
  }

  /** The graph without self-edges, and its keys in order of first appearance. */
  method BuildGraph(nodes: seq<Node>) returns (graph: Graph, keys: seq<Id>)
    ensures graph == SelfFree(GraphOf(nodes))
    ensures graph.Keys == set x | x in keys
  {
    graph, keys := map[], [];
    for i := 0 to |nodes|
      invariant graph == SelfFree(GraphOf(nodes[..i]))
      invariant graph.Keys == set x | x in keys
    {
      assert nodes[..i + 1][..i] == nodes[..i];
      var node := nodes[i];
      if node.id !in graph { keys := keys + [node.id]; }
      graph := graph[node.id := WithoutSelf(node.id, node.deps)];
    }
    assert nodes[..|nodes|] == nodes;
  }

  /** The validator's verdict, for every list of actions: no cycle is reported exactly
      when the graph without self-edges is acyclic, and a reported one is a closed
      dependency path of that graph. Ids that resolve to no action lie on no closed path. */
  method DetectDependencyCycle(nodes: seq<Node>) returns (cycle: Option<seq<Id>>)
    ensures cycle.None? <==> Acyclic(SelfFree(GraphOf(nodes)))
    ensures cycle.Some? ==> ClosedPath(SelfFree(GraphOf(nodes)), cycle.value)
  {
    hide GraphOf, SelfFree, Acyclic, ClosedPath;
    var graph, keys := BuildGraph(nodes);
    var search := new Search(graph);
    for k := 0 to |keys|
      invariant search.Valid() && search.path == [] && search.graph == graph
      invariant forall j | 0 <= j < k :: keys[j] in search.visited
    {
      cycle := search.Visit(keys[k]);
      if cycle.Some? {
        ClosedIsCyclic(graph, cycle.value);
        return;
      }
    }
    TopologicalAcyclic(graph, search.finished);
    return None;
  }

  lemma ClosedIsCyclic(g: Graph, p: seq<Id>)
    requires ClosedPath(g, p)
    ensures !Acyclic(g)
  {
  }

  // -------------------------------------------------------- the task planner's

  /** The planner keeps no path; `trail` is what it would be. Unknown keys are
      visited as leaves and self-edges are followed. */
  class PlannerSearch {
    const graph: Graph
    var visiting: set<Id>
    var visited: set<Id>
    ghost var trail: seq<Id>
    ghost var finished: seq<Id>

    ghost predicate Valid()
      reads this
    {
      && (trail == [] || Path(graph, trail))
      && visiting == (set x | x in trail)
      && visited == (set x | x in finished)
      && Topological(graph, finished)
    }

    constructor (graph: Graph)
      ensures this.graph == graph && Valid() && trail == [] && visited == {}
    {
      this.graph := graph;
      visiting, visited, trail, finished := {}, {}, [], [];
    }

    method Visit(node: Id) returns (ok: bool)
      requires Valid()
      requires trail == [] || Edge(graph, trail[|trail| - 1], node)
      modifies this
      ensures ok ==> Valid() && trail == old(trail) && node in visited && old(visited) <= visited
      ensures !ok ==> !Acyclic(graph)
      decreases graph.Keys - visiting
    {
      if node in visited { return true; }
      if node in visiting {
        TrailCloses(graph, trail, node);
        return false;
      }
      visiting, trail := visiting + {node}, trail + [node];
      PathExtends(graph, old(trail), node);
      var deps := if node in graph then graph[node] else [];
      for k := 0 to |deps|
        invariant Valid() && trail == old(trail) + [node] && old(visited) <= visited
        invariant visiting == old(visiting) + {node}
        invariant forall j | 0 <= j < k :: deps[j] in visited
      {
        ok := Visit(deps[k]);
        if !ok { return; }
      }
      trail := trail[..|trail| - 1];
      assert trail == old(trail);
      visiting, visited := visiting - {node}, visited + {node};
      TopologicalExtends(graph, finished, node);
      finished := finished + [node];
      return true;
    }
  }

  /** The planner accepts exactly the acyclic graphs, self-edges counting as cycles. */
  method AssertNoCycles(nodes: seq<Node>) returns (ok: bool)
    ensures ok <==> Acyclic(GraphOf(nodes))
  {
    var graph: Graph := map[];
    var keys: seq<Id> := [];
    for i := 0 to |nodes|
      invariant graph == GraphOf(nodes[..i])
      invariant graph.Keys == set x | x in keys
    {
      assert nodes[..i + 1][..i] == nodes[..i];
      if nodes[i].id !in graph { keys := keys + [nodes[i].id]; }
      graph := graph[nodes[i].id := nodes[i].deps];
    }
    assert nodes[..|nodes|] == nodes;
    var search := new PlannerSearch(graph);
    for k := 0 to |keys|
      invariant search.Valid() && search.trail == [] && search.graph == graph
      invariant forall j | 0 <= j < k :: keys[j] in search.visited
    {
      ok := search.Visit(keys[k]);
      if !ok { return; }
    }
    TopologicalAcyclic(graph, search.finished);
    return true;
  }

  // ---------------------------------------------------------- validated plans

  predicate DistinctIds(nodes: seq<Node>) {
    forall i, j | 0 <= i < j < |nodes| :: nodes[i].id != nodes[j].id
  }

  predicate NoSelfDependency(nodes: seq<Node>) {
    forall i | 0 <= i < |nodes| :: nodes[i].id !in nodes[i].deps
  }

  /** The graph of distinct ids is what each node says. */
  lemma {:induction false} GraphAt(nodes: seq<Node>, i: nat)
    requires DistinctIds(nodes) && i < |nodes|
    ensures nodes[i].id in GraphOf(nodes) && GraphOf(nodes)[nodes[i].id] == nodes[i].deps
  {
    var n := |nodes| - 1;
    if i < n { GraphAt(nodes[..n], i); }
  }

  lemma {:induction false} GraphKeys(nodes: seq<Node>, x: Id) returns (i: nat)
    requires x in GraphOf(nodes)
    ensures i < |nodes| && nodes[i].id == x && GraphOf(nodes)[x] == nodes[i].deps
  {
    var n := |nodes| - 1;
    if nodes[n].id == x { i := n; } else { i := GraphKeys(nodes[..n], x); }
  }

  /** On plans whose actions do not depend on themselves both searches give the same
      verdict, because self-edges are the only thing they treat differently. */
  lemma SameVerdict(nodes: seq<Node>)
    requires NoSelfDependency(nodes)
    ensures Acyclic(SelfFree(GraphOf(nodes))) <==> Acyclic(GraphOf(nodes))
  {
    var g := GraphOf(nodes);
    var h := SelfFree(g);
    forall x, y
      ensures Edge(g, x, y) <==> Edge(h, x, y)
    {
      if x in g { var i := GraphKeys(nodes, x); }
    }
    SameEdgesSameCycles(g, h);
    SameEdgesSameCycles(h, g);
  }

  lemma SameEdgesSameCycles(g: Graph, h: Graph)
    requires forall x, y :: Edge(g, x, y) ==> Edge(h, x, y)
    ensures Acyclic(h) ==> Acyclic(g)
  {
    if Acyclic(h) {
      forall p ensures !ClosedPath(g, p) {
        assert ClosedPath(g, p) ==> ClosedPath(h, p);
      }
    }
  }

  // -------------------------------------------------------------- validation

  datatype ValidationError =
    | DuplicateIds(id: Id)
    | SelfDependency(id: Id)
    | UnknownDependency(id: Id, dep: Id)
    | CyclicDependency(cycle: seq<Id>)

  predicate AllKnown(nodes: seq<Node>) {
    forall i, d | 0 <= i < |nodes| && d in nodes[i].deps :: exists j | 0 <= j < |nodes| :: nodes[j].id == d
  }

  /** What a plan must be before it may become READY: a graph. */
  ghost predicate WellFormed(nodes: seq<Node>) {
    DistinctIds(nodes) && NoSelfDependency(nodes) && AllKnown(nodes) && Acyclic(GraphOf(nodes))
  }

  method FindDuplicate(nodes: seq<Node>) returns (found: Option<Id>)
    ensures found.None? <==> DistinctIds(nodes)
  {
    var seen: set<Id> := {};
    for i := 0 to |nodes|
      invariant seen == set j | 0 <= j < i :: nodes[j].id
      invariant forall j, k | 0 <= j < k < i :: nodes[j].id != nodes[k].id
    {
      if nodes[i].id in seen { return Some(nodes[i].id); }
      seen := seen + {nodes[i].id};
    }
    return None;
  }

  method FindSelfDependency(nodes: seq<Node>) returns (found: Option<Id>)
    ensures found.None? <==> NoSelfDependency(nodes)
  {
    for i := 0 to |nodes|
      invariant forall j | 0 <= j < i :: nodes[j].id !in nodes[j].deps
    {
      if nodes[i].id in nodes[i].deps { return Some(nodes[i].id); }
    }
    return None;
  }

  method FindUnknown(nodes: seq<Node>) returns (found: Option<(Id, Id)>)
    ensures found.None? <==> AllKnown(nodes)
  {
    var known := set i | 0 <= i < |nodes| :: nodes[i].id;
    for i := 0 to |nodes|
      invariant forall j, d | 0 <= j < i && d in nodes[j].deps :: d in known
    {
      for k := 0 to |nodes[i].deps|
        invariant forall m | 0 <= m < k :: nodes[i].deps[m] in known
      {
        if nodes[i].deps[k] !in known {
          assert nodes[i].deps[k] in nodes[i].deps && !exists j | 0 <= j < |nodes| :: nodes[j].id == nodes[i].deps[k];
          return Some((nodes[i].id, nodes[i].deps[k]));
        }
      }
    }
    forall i, d | 0 <= i < |nodes| && d in nodes[i].deps
      ensures exists j | 0 <= j < |nodes| :: nodes[j].id == d
    {
      assert d in known;
    }
    return None;
  }

  /** The strict validator accepts exactly the well-formed plans. */
  method ValidateDependencies(nodes: seq<Node>) returns (error: Option<ValidationError>)
    ensures error.None? <==> WellFormed(nodes)
    ensures error.Some? && error.value.CyclicDependency? ==> ClosedPath(GraphOf(nodes), error.value.cycle)
  {
    var duplicate := FindDuplicate(nodes);
    if duplicate.Some? { return Some(DuplicateIds(duplicate.value)); }
    var self := FindSelfDependency(nodes);
    if self.Some? { return Some(SelfDependency(self.value)); }
    var unknown := FindUnknown(nodes);
    if unknown.Some? { return Some(UnknownDependency(unknown.value.0, unknown.value.1)); }
    var cycle := DetectDependencyCycle(nodes);
    SameVerdict(nodes);
    if cycle.Some? { return Some(CyclicDependency(cycle.value)); }
    return None;
  }
}
