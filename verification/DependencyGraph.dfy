/**
  Directed graphs of named nodes, shared by the plan validators (ticket
  dependencies) and by the task board (parent edges): paths, cycles,
  rankings, and the fact that ties them together — a finite graph has no
  cycle exactly when its nodes can be put in an order that respects every edge.
 */
module DependencyGraph {

  type Node = string
  type Edges = set<(Node, Node)>

  ghost predicate IsPath(edges: Edges, p: seq<Node>) {
    && p != []
    && forall i :: 0 <= i < |p| - 1 ==> (p[i], p[i + 1]) in edges
  }

  /** A path of at least one edge from a to b. */
  ghost predicate IsWalk(edges: Edges, p: seq<Node>, a: Node, b: Node) {
    && |p| >= 2
    && IsPath(edges, p)
    && p[0] == a
    && p[|p| - 1] == b
  }

  ghost predicate Reaches(edges: Edges, a: Node, b: Node) {
    exists p :: IsWalk(edges, p, a, b)
  }

  ghost predicate HasCycle(edges: Edges) {
    exists n :: Reaches(edges, n, n)
  }

  /** Every edge goes to a strictly larger rank. */
  ghost predicate RankedBy(edges: Edges, rank: map<Node, nat>) {
    forall e :: e in edges ==> e.0 in rank && e.1 in rank && rank[e.0] < rank[e.1]
  }

  lemma EdgeReaches(edges: Edges, a: Node, b: Node)
    requires (a, b) in edges
    ensures Reaches(edges, a, b)
  {
    assert IsWalk(edges, [a, b], a, b);
  }

  lemma ReachesTransitive(edges: Edges, a: Node, b: Node, c: Node)
    requires Reaches(edges, a, b) && Reaches(edges, b, c)
    ensures Reaches(edges, a, c)
  {
    var p :| IsWalk(edges, p, a, b);
    var q :| IsWalk(edges, q, b, c);
    var r := p + q[1..];
    forall i | 0 <= i < |r| - 1
      ensures (r[i], r[i + 1]) in edges
    {
      if i >= |p| - 1 {
        var j := i - (|p| - 1);
        assert r[i] == q[j] && r[i + 1] == q[j + 1];
      }
    }
    assert IsWalk(edges, r, a, c);
  }

  /** The first edge of a walk, and what is left of it. */
  lemma FirstStep(edges: Edges, p: seq<Node>, a: Node, b: Node)
    requires IsWalk(edges, p, a, b)
    ensures (a, p[1]) in edges
    ensures p[1] == b || IsWalk(edges, p[1..], p[1], b)
  {
    assert (p[0], p[1]) in edges;
    if |p| > 2 {
      assert IsPath(edges, p[1..]) by {
        forall i | 0 <= i < |p[1..]| - 1 ensures (p[1..][i], p[1..][i + 1]) in edges {
          assert (p[i + 1], p[i + 2]) in edges;
        }
      }
    }
  }

  lemma {:induction false} WalkClimbs(edges: Edges, rank: map<Node, nat>, p: seq<Node>, a: Node, b: Node)
    requires RankedBy(edges, rank) && IsWalk(edges, p, a, b)
    ensures a in rank && b in rank && rank[a] < rank[b]
    decreases |p|
  {
    FirstStep(edges, p, a, b);
    if p[1] != b {
      WalkClimbs(edges, rank, p[1..], p[1], b);
    }
  }

  lemma RankedHasNoCycle(edges: Edges, rank: map<Node, nat>)
    requires RankedBy(edges, rank)
    ensures !HasCycle(edges)
  {
    if n :| Reaches(edges, n, n) {
      var p :| IsWalk(edges, p, n, n);
      WalkClimbs(edges, rank, p, n, n);
    }
  }

  // ----- Orders -----

  /** order lists nodes once each, and every edge leaving a listed node goes to an earlier one. */
  ghost predicate DependenciesFirst(edges: Edges, order: seq<Node>) {
    && (forall i, j :: 0 <= i < j < |order| ==> order[i] != order[j])
    && (forall i, n :: 0 <= i < |order| && (order[i], n) in edges ==> n in order[..i])
  }

  ghost predicate TopologicalOrder(edges: Edges, nodes: set<Node>, order: seq<Node>) {
    && DependenciesFirst(edges, order)
    && (set n | n in order) == nodes
  }

  /** Every edge stays inside nodes. */
  ghost predicate Within(edges: Edges, nodes: set<Node>) {
    forall e :: e in edges ==> e.0 in nodes && e.1 in nodes
  }

  lemma {:induction false} OrderedWalkDescends(edges: Edges, order: seq<Node>, p: seq<Node>, i: nat)
    requires DependenciesFirst(edges, order) && i < |order|
    requires |p| >= 2 && IsPath(edges, p) && p[0] == order[i]
    ensures p[|p| - 1] in order[..i]
    decreases |p|
  {
    FirstStep(edges, p, p[0], p[|p| - 1]);
    assert (order[i], p[1]) in edges;
    if |p| > 2 {
      var j :| 0 <= j < i && order[j] == p[1];
      assert p[1..][|p[1..]| - 1] == p[|p| - 1];
      assert IsPath(edges, p[1..]) by {
        forall k | 0 <= k < |p[1..]| - 1 ensures (p[1..][k], p[1..][k + 1]) in edges {
          assert (p[k + 1], p[k + 2]) in edges;
        }
      }
      OrderedWalkDescends(edges, order, p[1..], j);
      assert order[..j] <= order[..i];
    }
  }

  lemma OrderedHasNoCycle(edges: Edges, nodes: set<Node>, order: seq<Node>)
    requires TopologicalOrder(edges, nodes, order)
    requires forall e :: e in edges ==> e.0 in nodes
    ensures !HasCycle(edges)
  {
    if n :| Reaches(edges, n, n) {
      var p :| IsWalk(edges, p, n, n);
      assert (p[0], p[1]) in edges;
      assert n in (set m | m in order);
      var i :| 0 <= i < |order| && order[i] == n;
      OrderedWalkDescends(edges, order, p, i);
    }
  }

  // ----- An acyclic graph always has a node with nothing left to wait for -----

  ghost predicate Waits(edges: Edges, nodes: set<Node>, n: Node) {
    exists m :: m in nodes && (n, m) in edges
  }

  ghost predicate Stuck(edges: Edges, nodes: set<Node>) {
    forall n :: n in nodes ==> Waits(edges, nodes, n)
  }

  lemma {:induction false} StuckWalk(edges: Edges, nodes: set<Node>, len: nat) returns (p: seq<Node>)
    requires nodes != {} && Stuck(edges, nodes) && len >= 1
    ensures |p| == len && IsPath(edges, p)
    ensures forall i :: 0 <= i < |p| ==> p[i] in nodes
    decreases len
  {
    if len == 1 {
      var n :| n in nodes;
      p := [n];
    } else {
      var q := StuckWalk(edges, nodes, len - 1);
      assert Waits(edges, nodes, q[|q| - 1]);
      var m :| m in nodes && (q[|q| - 1], m) in edges;
      p := q + [m];
    }
  }

  lemma {:induction false} LongSequenceRepeats(nodes: set<Node>, p: seq<Node>)
    requires |p| > |nodes| && forall i :: 0 <= i < |p| ==> p[i] in nodes
    ensures exists i, j :: 0 <= i < j < |p| && p[i] == p[j]
    decreases nodes
  {
    var last := p[|p| - 1];
    var front := p[..|p| - 1];
    if last !in front {
      LongSequenceRepeats(nodes - {last}, front);
      var i, j :| 0 <= i < j < |front| && front[i] == front[j];
      assert p[i] == p[j];
    } else {
      var i :| 0 <= i < |front| && front[i] == last;
      assert p[i] == p[|p| - 1];
    }
  }

  lemma StuckHasCycle(edges: Edges, nodes: set<Node>)
    requires nodes != {} && Stuck(edges, nodes)
    ensures HasCycle(edges)
  {
    var p := StuckWalk(edges, nodes, |nodes| + 1);
    LongSequenceRepeats(nodes, p);
    var i, j :| 0 <= i < j < |p| && p[i] == p[j];
    var q := p[i..j + 1];
    forall k | 0 <= k < |q| - 1 ensures (q[k], q[k + 1]) in edges {
      assert (p[i + k], p[i + k + 1]) in edges;
    }
    assert IsWalk(edges, q, p[i], p[i]);
    assert Reaches(edges, p[i], p[i]);
  }

  lemma {:induction false} AcyclicExtends(edges: Edges, nodes: set<Node>, done: seq<Node>) returns (order: seq<Node>)
    requires !HasCycle(edges) && Within(edges, nodes)
    requires DependenciesFirst(edges, done) && (set n | n in done) <= nodes
    ensures TopologicalOrder(edges, nodes, order)
    decreases nodes - (set n | n in done)
  {
    var listed := set n | n in done;
    var left := nodes - listed;
    if left == {} {
      forall n | n in nodes ensures n in listed {
        assert n !in left;
      }
      order := done;
    } else {
      if Stuck(edges, left) {
        StuckHasCycle(edges, left);
      }
      var n :| n in left && !Waits(edges, left, n);
      var more := done + [n];
      forall i, m | 0 <= i < |more| && (more[i], m) in edges
        ensures m in more[..i]
      {
        if i < |done| {
          assert more[..i] == done[..i] && (done[i], m) in edges;
        } else {
          assert more[..i] == done && m in nodes;
          assert m in listed;
        }
      }
      assert (set m | m in more) == listed + {n};
      order := AcyclicExtends(edges, nodes, more);
    }
  }

  /** A finite graph is acyclic exactly when its nodes have an order in which every dependency comes first. */
  lemma AcyclicIffOrdered(edges: Edges, nodes: set<Node>)
    requires Within(edges, nodes)
    ensures !HasCycle(edges) <==> exists order :: TopologicalOrder(edges, nodes, order)
  {
    if !HasCycle(edges) {
      var order := AcyclicExtends(edges, nodes, []);
    }
    if order :| TopologicalOrder(edges, nodes, order) {
      OrderedHasNoCycle(edges, nodes, order);
    }
  }

  /** The same, with a rank that grows along every edge instead of an order. */
  lemma AcyclicIsRanked(edges: Edges, nodes: set<Node>) returns (rank: map<Node, nat>)
    requires Within(edges, nodes) && !HasCycle(edges)
    ensures rank.Keys == nodes && RankedBy(edges, rank)
  {
    var order := AcyclicExtends(edges, nodes, []);
    rank := map n | n in nodes :: |order| - PositionOf(order, n);
    forall e | e in edges ensures rank[e.0] < rank[e.1] {
      assert e.0 in (set n | n in order);
      var i := PositionOf(order, e.0);
      assert (order[i], e.1) in edges;
      var j :| 0 <= j < i && order[j] == e.1;
      assert PositionOf(order, e.1) == j;
    }
  }

  ghost function PositionOf(order: seq<Node>, n: Node): (i: nat)
    ensures i <= |order|
    ensures n in order ==> i < |order| && order[i] == n
    ensures n !in order ==> i == |order|
  {
    if n in order then var i :| 0 <= i < |order| && order[i] == n; i else |order|
  }
}
