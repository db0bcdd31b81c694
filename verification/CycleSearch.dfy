/**
  The three depth-first cycle checks, each with its own pair of shared mutable
  sets: PlanValidator.validate_tranche, PlanValidator.validate, and
  CorrectionService._validate. Sets are walked in an arbitrary order, which
  covers every order Python may choose.
 */
module CycleSearch {
  import opened DependencyGraph

  type DependencyMap = map<Node, set<Node>>

  ghost function EdgesOf(graph: DependencyMap): Edges {
    set a, b | a in graph && b in graph[a] :: (a, b)
  }

  /** The edges whose target is itself a key. */
  ghost function ListedEdges(graph: DependencyMap): Edges {
    set e | e in EdgesOf(graph) && e.1 in graph
  }

  ghost function Mentioned(graph: DependencyMap): set<Node> {
    graph.Keys + set e | e in EdgesOf(graph) :: e.1
  }

  ghost predicate Closed(graph: DependencyMap) {
    forall n :: n in graph ==> graph[n] <= graph.Keys
  }

  /** A cycle never passes through a name that is not a key. */
  lemma UnlistedNamesCloseNoCycle(graph: DependencyMap)
    ensures HasCycle(EdgesOf(graph)) <==> HasCycle(ListedEdges(graph))
  {
    if n :| Reaches(EdgesOf(graph), n, n) {
      var p :| IsWalk(EdgesOf(graph), p, n, n);
      forall i | 0 <= i < |p| - 1 ensures (p[i], p[i + 1]) in ListedEdges(graph) {
        assert (p[i], p[i + 1]) in EdgesOf(graph);
        if i + 1 < |p| - 1 {
          assert (p[i + 1], p[i + 2]) in EdgesOf(graph);
        } else {
          assert (p[0], p[1]) in EdgesOf(graph);
        }
      }
      assert IsWalk(ListedEdges(graph), p, n, n);
      assert Reaches(ListedEdges(graph), n, n);
    }
    if n :| Reaches(ListedEdges(graph), n, n) {
      var p :| IsWalk(ListedEdges(graph), p, n, n);
      assert IsWalk(EdgesOf(graph), p, n, n);
      assert Reaches(EdgesOf(graph), n, n);
    }
  }

  /**
    What a search knows while it is running: finished nodes in the order they
    were finished, each after everything it depends on; the nodes being visited,
    which form a path; and nothing in both.
   */
  ghost predicate Searching(edges: Edges, finished: seq<Node>, stack: seq<Node>) {
    && DependenciesFirst(edges, finished)
    && (stack != [] ==> IsPath(edges, stack))
    && (forall i, j :: 0 <= i < j < |stack| ==> stack[i] != stack[j])
    && (forall n :: n in stack ==> n !in finished)
  }

  ghost function Elements(s: seq<Node>): set<Node> {
    set n | n in s
  }

  /** n may be visited next: it is a starting point, or a successor of the node on top. */
  ghost predicate MayVisit(edges: Edges, stack: seq<Node>, n: Node) {
    stack == [] || (stack[|stack| - 1], n) in edges
  }

  lemma BackEdgeClosesCycle(edges: Edges, finished: seq<Node>, stack: seq<Node>, n: Node)
    requires Searching(edges, finished, stack) && MayVisit(edges, stack, n) && n in stack
    ensures HasCycle(edges)
  {
    var i :| 0 <= i < |stack| && stack[i] == n;
    var p := stack[i..] + [n];
    forall k | 0 <= k < |p| - 1 ensures (p[k], p[k + 1]) in edges {
      if k < |p| - 2 {
        assert (stack[i + k], stack[i + k + 1]) in edges;
      }
    }
    assert IsWalk(edges, p, n, n);
    assert Reaches(edges, n, n);
  }

  lemma Push(edges: Edges, finished: seq<Node>, stack: seq<Node>, n: Node)
    requires Searching(edges, finished, stack) && MayVisit(edges, stack, n)
    requires n !in stack && n !in finished
    ensures Searching(edges, finished, stack + [n])
    ensures Elements(stack + [n]) == Elements(stack) + {n}
  {
  }

  lemma Finish(edges: Edges, finished: seq<Node>, stack: seq<Node>, n: Node)
    requires Searching(edges, finished, stack + [n])
    requires forall m :: (n, m) in edges ==> m in finished
    ensures Searching(edges, finished + [n], stack)
    ensures Elements(finished + [n]) == Elements(finished) + {n}
    ensures Elements(stack + [n]) == Elements(stack) + {n} && n !in stack
  {
    var whole := stack + [n];
    assert whole[|stack|] == n && n in whole;
    forall k | 0 <= k < |stack| - 1 ensures (stack[k], stack[k + 1]) in edges {
      assert (whole[k], whole[k + 1]) in edges;
    }
    forall i, j | 0 <= i < j < |stack| ensures stack[i] != stack[j] {
      assert whole[i] != whole[j];
    }
    forall i | 0 <= i < |stack| ensures stack[i] != n {
      assert whole[i] != whole[|stack|];
    }
    forall m | m in stack ensures m !in finished + [n] {
      assert m in whole;
    }
    var more := finished + [n];
    forall i, m | 0 <= i < |more| && (more[i], m) in edges ensures m in more[..i] {
      if i < |finished| {
        assert more[..i] == finished[..i] && (finished[i], m) in edges;
      } else {
        assert more[..i] == finished;
      }
    }
  }

  /** A search that finished every key, with nothing left open, has seen an order. */
  lemma AllFinished(edges: Edges, finished: seq<Node>, nodes: set<Node>)
    requires Searching(edges, finished, [])
    requires forall e :: e in edges ==> e.0 in nodes
    requires forall n :: n in nodes ==> n in finished
    ensures !HasCycle(edges)
  {
    assert TopologicalOrder(edges, Elements(finished), finished);
    OrderedHasNoCycle(edges, Elements(finished), finished);
  }

  /** validate_tranche: a node is seen from the moment it is entered; a missing key has no dependencies. */
  class TrancheSearch {
    const graph: DependencyMap
    var seen: set<Node>
    var visiting: set<Node>
    ghost var finished: seq<Node>
    ghost var stack: seq<Node>

    constructor (graph: DependencyMap)
      ensures this.graph == graph && Valid() && stack == [] && finished == []
    {
      this.graph := graph;
      seen, visiting, finished, stack := {}, {}, [], [];
    }

    ghost predicate Valid() reads this {
      && Searching(EdgesOf(graph), finished, stack)
      && visiting == Elements(stack)
      && seen == Elements(finished) + Elements(stack)
    }

    method Dfs(n: Node) returns (bad: bool)
      requires Valid() && n in Mentioned(graph) && MayVisit(EdgesOf(graph), stack, n)
      modifies this
      ensures seen >= old(seen)
      ensures bad ==> HasCycle(EdgesOf(graph))
      ensures !bad ==> Valid() && stack == old(stack) && old(finished) <= finished && n in finished
      decreases Mentioned(graph) - seen
    {
      hide Searching, HasCycle;
      if n in visiting {
        BackEdgeClosesCycle(EdgesOf(graph), finished, stack, n);
        return true;
      }
      if n in seen {
        return false;
      }
      Push(EdgesOf(graph), finished, stack, n);
      seen := seen + {n};
      visiting := visiting + {n};
      stack := stack + [n];
      bad := false;
      var rest := if n in graph then graph[n] else {};
      while rest != {} && !bad
        invariant seen >= old(seen) + {n}
        invariant rest <= if n in graph then graph[n] else {}
        invariant bad ==> HasCycle(EdgesOf(graph))
        invariant !bad ==> Valid() && stack == old(stack) + [n] && old(finished) <= finished
        invariant !bad ==> forall m :: (n, m) in EdgesOf(graph) ==> m in rest || m in finished
        decreases rest
      {
        var x :| x in rest;
        assert (n, x) in EdgesOf(graph);
        bad := Dfs(x);
        rest := rest - {x};
      }
      visiting := visiting - {n};
      if !bad {
        Finish(EdgesOf(graph), finished, old(stack), n);
        stack := old(stack);
        finished := finished + [n];
      }
    }

    method AnyCycle() returns (bad: bool)
      requires Valid() && stack == []
      modifies this
      ensures bad <==> HasCycle(EdgesOf(graph))
    {
      bad := false;
      var rest := graph.Keys;
      while rest != {} && !bad
        invariant bad ==> HasCycle(EdgesOf(graph))
        invariant !bad ==> Valid() && stack == [] && rest <= graph.Keys
        invariant !bad ==> forall n :: n in graph ==> n in rest || n in finished
        decreases rest
      {
        var n :| n in rest;
        bad := Dfs(n);
        rest := rest - {n};
      }
      if !bad {
        AllFinished(EdgesOf(graph), finished, graph.Keys);
      }
    }
  }

  /** validate: as above, but a name that is not a key is passed over without being recorded. */
  class PlanSearch {
    const graph: DependencyMap
    var seen: set<Node>
    var visiting: set<Node>
    ghost var finished: seq<Node>
    ghost var stack: seq<Node>

    constructor (graph: DependencyMap)
      ensures this.graph == graph && Valid() && stack == [] && finished == []
    {
      this.graph := graph;
      seen, visiting, finished, stack := {}, {}, [], [];
    }

    ghost predicate Valid() reads this {
      && Searching(ListedEdges(graph), finished, stack)
      && visiting == Elements(stack)
      && seen == Elements(finished) + Elements(stack)
    }

    method Dfs(n: Node) returns (bad: bool)
      requires Valid() && (n in graph ==> MayVisit(ListedEdges(graph), stack, n))
      modifies this
      ensures seen >= old(seen)
      ensures bad ==> HasCycle(ListedEdges(graph))
      ensures !bad ==> Valid() && stack == old(stack) && old(finished) <= finished
      ensures !bad && n in graph ==> n in finished
      decreases graph.Keys - seen
    {
      if n !in graph {
        return false;
      }
      if n in visiting {
        BackEdgeClosesCycle(ListedEdges(graph), finished, stack, n);
        return true;
      }
      if n in seen {
        return false;
      }
      Push(ListedEdges(graph), finished, stack, n);
      seen := seen + {n};
      visiting := visiting + {n};
      stack := stack + [n];
      bad := false;
      var rest := graph[n];
      while rest != {} && !bad
        invariant seen >= old(seen) + {n}
        invariant rest <= graph[n]
        invariant bad ==> HasCycle(ListedEdges(graph))
        invariant !bad ==> Valid() && stack == old(stack) + [n] && old(finished) <= finished
        invariant !bad ==> forall m :: (n, m) in ListedEdges(graph) ==> m in rest || m in finished
        decreases rest
      {
        var x :| x in rest;
        assert (n, x) in EdgesOf(graph);
        bad := Dfs(x);
        rest := rest - {x};
      }
      visiting := visiting - {n};
      if !bad {
        Finish(ListedEdges(graph), finished, old(stack), n);
        stack := old(stack);
        finished := finished + [n];
      }
    }

    method AnyCycle() returns (bad: bool)
      requires Valid() && stack == []
      modifies this
      ensures bad <==> HasCycle(EdgesOf(graph))
    {
      bad := false;
      var rest := graph.Keys;
      while rest != {} && !bad
        invariant bad ==> HasCycle(ListedEdges(graph))
        invariant !bad ==> Valid() && stack == [] && rest <= graph.Keys
        invariant !bad ==> forall n :: n in graph ==> n in rest || n in finished
        decreases rest
      {
        var n :| n in rest;
        bad := Dfs(n);
        rest := rest - {n};
      }
      if !bad {
        AllFinished(ListedEdges(graph), finished, graph.Keys);
      }
      UnlistedNamesCloseNoCycle(graph);
    }
  }

  /** CorrectionService._validate: a node is visited only once it has been left. */
  class CorrectionSearch {
    const graph: DependencyMap
    var visiting: set<Node>
    var visited: set<Node>
    ghost var finished: seq<Node>
    ghost var stack: seq<Node>

    constructor (graph: DependencyMap)
      ensures this.graph == graph && Valid() && stack == [] && finished == []
    {
      this.graph := graph;
      visiting, visited, finished, stack := {}, {}, [], [];
    }

    ghost predicate Valid() reads this {
      && Searching(EdgesOf(graph), finished, stack)
      && visiting == Elements(stack)
      && visited == Elements(finished)
    }

    /** Sibling dependencies outside the plan were refused before the search starts. */
    method Cycle(n: Node) returns (bad: bool)
      requires Closed(graph) && n in graph
      requires Valid() && MayVisit(EdgesOf(graph), stack, n)
      modifies this
      ensures bad ==> HasCycle(EdgesOf(graph))
      ensures !bad ==> Valid() && stack == old(stack) && old(finished) <= finished && n in finished
      decreases graph.Keys - (visiting + visited)
    {
      if n in visiting {
        BackEdgeClosesCycle(EdgesOf(graph), finished, stack, n);
        return true;
      }
      if n in visited {
        return false;
      }
      Push(EdgesOf(graph), finished, stack, n);
      visiting := visiting + {n};
      stack := stack + [n];
      bad := false;
      var rest := graph[n];
      while rest != {} && !bad
        invariant rest <= graph[n]
        invariant bad ==> HasCycle(EdgesOf(graph))
        invariant !bad ==> Valid() && stack == old(stack) + [n] && old(finished) <= finished
        invariant !bad ==> forall m :: (n, m) in EdgesOf(graph) ==> m in rest || m in finished
        decreases rest
      {
        var x :| x in rest;
        assert (n, x) in EdgesOf(graph);
        bad := Cycle(x);
        rest := rest - {x};
      }
      visiting := visiting - {n};
      visited := visited + {n};
      if !bad {
        Finish(EdgesOf(graph), finished, old(stack), n);
        stack := old(stack);
        finished := finished + [n];
      }
    }

    method AnyCycle() returns (bad: bool)
      requires Closed(graph) && Valid() && stack == []
      modifies this
      ensures bad <==> HasCycle(EdgesOf(graph))
    {
      bad := false;
      var rest := graph.Keys;
      while rest != {} && !bad
        invariant bad ==> HasCycle(EdgesOf(graph))
        invariant !bad ==> Valid() && stack == [] && rest <= graph.Keys
        invariant !bad ==> forall n :: n in graph ==> n in rest || n in finished
        decreases rest
      {
        var n :| n in rest;
        bad := Cycle(n);
        rest := rest - {n};
      }
      if !bad {
        AllFinished(EdgesOf(graph), finished, graph.Keys);
      }
    }
  }

  method TrancheHasCycle(graph: DependencyMap) returns (bad: bool)
    ensures bad <==> HasCycle(EdgesOf(graph))
  {
    var search := new TrancheSearch(graph);
    bad := search.AnyCycle();
  }

  method PlanHasCycle(graph: DependencyMap) returns (bad: bool)
    ensures bad <==> HasCycle(EdgesOf(graph))
  {
    var search := new PlanSearch(graph);
    bad := search.AnyCycle();
  }

  method CorrectionHasCycle(graph: DependencyMap) returns (bad: bool)
    requires Closed(graph)
    ensures bad <==> HasCycle(EdgesOf(graph))
  {
    var search := new CorrectionSearch(graph);
    bad := search.AnyCycle();
  }

  /** The correction check as a whole: a dependency outside the plan is refused before the search. */
  method CorrectionRefuses(graph: DependencyMap) returns (refused: bool)
    ensures refused <==> !Closed(graph) || HasCycle(EdgesOf(graph))
  {
    if exists n :: n in graph && !(graph[n] <= graph.Keys) {
      return true;
    }
    refused := CorrectionHasCycle(graph);
  }

  /** On every dependency map the three checks agree on the cycle; only the third also minds unlisted names. */
  method SearchesAgree(graph: DependencyMap) returns (onEntry: bool, listed: bool, refused: bool)
    ensures onEntry == listed
    ensures refused <==> onEntry || !Closed(graph)
  {
    onEntry := TrancheHasCycle(graph);
    listed := PlanHasCycle(graph);
    refused := CorrectionRefuses(graph);
  }
}
