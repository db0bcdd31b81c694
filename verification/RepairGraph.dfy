/**
  What the repair rewrite does to the dependency graph, independent of how it
  is carried out: which graphs can be seen on the way from the old graph to the
  new one, and what all of them have in common.
 */
module RepairGraph {
  import opened DependencyGraph

  /** The graph when the intent was recorded: the predecessor's children are exactly the frozen list. */
  datatype Frozen = Frozen(edges: Edges, predecessor: Node, repair: Node, children: set<Node>)

  ghost predicate WellFrozen(f: Frozen) {
    && f.predecessor != f.repair
    && f.predecessor !in f.children
    && (forall c :: c in f.children <==> (f.predecessor, c) in f.edges)
    && (forall e :: e in f.edges ==> e.0 != f.repair && e.1 != f.repair)
  }

  /** Between old and new: other edges untouched, and every child waits for the predecessor or the repair task. */
  ghost predicate Between(f: Frozen, edges: Edges) {
    && (forall e :: e in edges ==>
        e in f.edges || e == (f.predecessor, f.repair) || (e.0 == f.repair && e.1 in f.children))
    && (forall e :: e in f.edges && e.0 != f.predecessor ==> e in edges)
    && (forall c :: c in f.children ==> (f.predecessor, c) in edges || (f.repair, c) in edges)
  }

  /** No child is taken from the predecessor before the repair task hangs below it. */
  ghost predicate Anchored(f: Frozen, edges: Edges) {
    forall c :: c in f.children && (f.predecessor, c) !in edges ==> (f.predecessor, f.repair) in edges
  }

  /** The graph the rewrite ends with; a predecessor that is not done is no longer a parent of anything here. */
  function Rewritten(f: Frozen, done: bool): Edges {
    (set e | e in f.edges && e.0 != f.predecessor)
    + (set c | c in f.children :: (f.repair, c))
    + (if done then {(f.predecessor, f.repair)} else {})
  }

  lemma OldWalkSurvives(f: Frozen, edges: Edges, p: seq<Node>, u: Node, v: Node)
    requires WellFrozen(f) && Between(f, edges) && Anchored(f, edges)
    requires IsWalk(f.edges, p, u, v)
    ensures Reaches(edges, u, v)
    decreases |p|
  {
    FirstStep(f.edges, p, u, v);
    var x := p[1];
    assert Reaches(edges, u, x) by {
      if (u, x) in edges {
        EdgeReaches(edges, u, x);
      } else {
        EdgeReaches(edges, f.predecessor, f.repair);
        EdgeReaches(edges, f.repair, x);
        ReachesTransitive(edges, f.predecessor, f.repair, x);
      }
    }
    if x != v || IsWalk(f.edges, p[1..], x, v) {
      OldWalkSurvives(f, edges, p[1..], x, v);
      ReachesTransitive(edges, u, x, v);
    }
  }

  /** A new walk from an old node, read in the old graph, where the repair task stands for its predecessor. */
  lemma {:induction false} NewWalkWasThere(f: Frozen, edges: Edges, p: seq<Node>, u: Node, v: Node)
    requires WellFrozen(f) && Between(f, edges)
    requires IsWalk(edges, p, u, v) && v != f.repair
    ensures u != f.repair ==> Reaches(f.edges, u, v)
    ensures u == f.repair ==> Reaches(f.edges, f.predecessor, v)
    decreases |p|
  {
    FirstStep(edges, p, u, v);
    var x := p[1];
    if x != v || IsWalk(edges, p[1..], x, v) {
      NewWalkWasThere(f, edges, p[1..], x, v);
    }
    var start := if u == f.repair then f.predecessor else u;
    if x != f.repair {
      assert (start, x) in f.edges;
      EdgeReaches(f.edges, start, x);
      if x != v || IsWalk(edges, p[1..], x, v) {
        ReachesTransitive(f.edges, start, x, v);
      }
    }
  }

  /** With a done predecessor, no old task gains or loses a dependency, direct or not, at any point of the rewrite. */
  lemma ReachabilityIsKept(f: Frozen, edges: Edges, u: Node, v: Node)
    requires WellFrozen(f) && Between(f, edges) && Anchored(f, edges)
    requires u != f.repair && v != f.repair
    ensures Reaches(edges, u, v) <==> Reaches(f.edges, u, v)
  {
    if Reaches(edges, u, v) {
      var p :| IsWalk(edges, p, u, v);
      NewWalkWasThere(f, edges, p, u, v);
    }
    if Reaches(f.edges, u, v) {
      var p :| IsWalk(f.edges, p, u, v);
      OldWalkSurvives(f, edges, p, u, v);
    }
  }

  /** The rewrite never creates a cycle, whatever the state of the predecessor. */
  lemma StaysAcyclic(f: Frozen, edges: Edges)
    requires WellFrozen(f) && Between(f, edges) && !HasCycle(f.edges)
    ensures !HasCycle(edges)
  {
    var nodes := (set e | e in f.edges :: e.0) + (set e | e in f.edges :: e.1) + {f.predecessor};
    var rank := AcyclicIsRanked(f.edges, nodes);
    var doubled := (map n | n in nodes :: 2 * rank[n])[f.repair := 2 * rank[f.predecessor] + 1];
    forall e | e in edges ensures e.0 in doubled && e.1 in doubled && doubled[e.0] < doubled[e.1] {
      if e in f.edges {
        assert rank[e.0] < rank[e.1];
      } else if e.0 == f.repair && e.1 in f.children {
        assert (f.predecessor, e.1) in f.edges;
      }
    }
    RankedHasNoCycle(edges, doubled);
  }

  /** A graph between old and new in which every child has changed parent is the new one. */
  lemma AllMovedIsRewritten(f: Frozen, edges: Edges, done: bool)
    requires WellFrozen(f) && Between(f, edges)
    requires (f.predecessor, f.repair) in edges <==> done
    requires forall c :: c in f.children ==> (f.predecessor, c) !in edges
    ensures edges == Rewritten(f, done)
  {
    forall e | e in edges ensures e in Rewritten(f, done) {
      assert e in f.edges && e.0 == f.predecessor ==> e.1 in f.children;
    }
    forall e | e in Rewritten(f, done) ensures e in edges {
    }
  }
}
