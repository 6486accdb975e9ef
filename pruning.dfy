/** Pruning (app.py:72-75): the nodes `0..node-1` that have neither successors
    nor predecessors are removed from the auxiliary graph. */
module Pruning {
  import opened Graphs
  import opened Firms
  import opened Assembly

  /** Node `x` is an endpoint of some edge. */
  predicate Linked(edges: set<(int, int)>, x: int)
  {
    exists e :: e in edges && (e.0 == x || e.1 == x)
  }

  /** Whether a pruning pass over `range(count)` keeps node `x`. */
  predicate Kept(edges: set<(int, int)>, count: int, x: int)
  {
    !(0 <= x < count) || Linked(edges, x)
  }

  /** The members of `ns` that a pass over `range(count)` keeps, in order. */
  function KeepLinked(ns: seq<int>, edges: set<(int, int)>, count: int): (r: seq<int>)
    ensures forall x :: x in r <==> x in ns && Kept(edges, count, x)
    ensures Increasing(ns) ==> Increasing(r)
    decreases |ns|
  {
    if ns == [] then []
    else
      var init := KeepLinked(ns[..|ns| - 1], edges, count);
      var last := ns[|ns| - 1];
      assert forall x :: x in ns[..|ns| - 1] ==> x in ns;
      assert Increasing(ns) ==> Increasing(init + [last]) by {
        if Increasing(ns) {
          assert Increasing(ns[..|ns| - 1]);
          forall k | 0 <= k < |init| ensures init[k] < last {
            assert init[k] in init;
            var i :| 0 <= i < |ns| - 1 && ns[i] == init[k];
          }
        }
      }
      if Kept(edges, count, last) then init + [last] else init
  }

  /** The graph after the pruning loop over `range(count)`: edges are untouched,
      since a removed node has none. */
  function Pruned(g: Graph, count: int): Graph
  {
    Graph(KeepLinked(g.nodes, g.edges, count),
          KeptLabels(g.labels, g.edges, count),
          g.edges)
  }

  /** The test of app.py:74: in a graph whose edges join its own nodes, a node
      has no successors and no predecessors exactly when no edge touches it. */
  lemma IsolatedIffUnlinked(g: Graph, x: int)
    requires forall e :: e in g.edges ==> e.0 in g.nodes && e.1 in g.nodes
    ensures |SuccessorsOf(g, x)| == 0 && |PredecessorsOf(g, x)| == 0 <==> !Linked(g.edges, x)
  {
    if Linked(g.edges, x) {
      var e :| e in g.edges && (e.0 == x || e.1 == x);
      if e.0 == x {
        assert e.1 in SuccessorsOf(g, x);
      } else {
        assert e.0 in PredecessorsOf(g, x);
      }
    }
    if |SuccessorsOf(g, x)| > 0 {
      assert (x, SuccessorsOf(g, x)[0]) in g.edges;
    }
    if |PredecessorsOf(g, x)| > 0 {
      assert (PredecessorsOf(g, x)[0], x) in g.edges;
    }
  }

  /** One iteration of the pruning loop: node `n` goes exactly when it is unlinked. */
  lemma {:induction false} KeepStep(ns: seq<int>, edges: set<(int, int)>, n: int)
    requires 0 <= n
    ensures KeepLinked(ns, edges, n + 1)
         == if Linked(edges, n) then KeepLinked(ns, edges, n) else Without(KeepLinked(ns, edges, n), n)
    decreases |ns|
  {
    if ns != [] {
      KeepStep(ns[..|ns| - 1], edges, n);
    }
  }

  /** The "label" attributes left after a pass over `range(count)`. */
  function KeptLabels(labels: map<int, int>, edges: set<(int, int)>, count: int): (r: map<int, int>)
    ensures forall x :: x in r <==> x in labels && Kept(edges, count, x)
    ensures forall x :: x in r ==> r[x] == labels[x]
  {
    map x | x in labels && Kept(edges, count, x) :: labels[x]
  }

  lemma KeptLabelsStep(labels: map<int, int>, edges: set<(int, int)>, n: int)
    requires 0 <= n
    ensures KeptLabels(labels, edges, n + 1)
         == if Linked(edges, n) then KeptLabels(labels, edges, n) else KeptLabels(labels, edges, n) - {n}
  {
  }

  /** Before the loop starts nothing is removed. */
  lemma {:induction false} KeepNone(ns: seq<int>, edges: set<(int, int)>)
    ensures KeepLinked(ns, edges, 0) == ns
    decreases |ns|
  {
    if ns != [] {
      KeepNone(ns[..|ns| - 1], edges);
      assert ns == ns[..|ns| - 1] + [ns[|ns| - 1]];
    }
  }

  /** The graph part-way through the pruning loop, after `range(n)`. */
  function PrunedUpTo(g: Graph, n: int): Graph
  {
    Graph(KeepLinked(g.nodes, g.edges, n), KeptLabels(g.labels, g.edges, n), g.edges)
  }

  /** At iteration `n` node `n` is still there, and the test of app.py:74 finds
      it isolated exactly when no edge touches it. */
  lemma PruneTest(g: Graph, n: nat)
    requires n in g.nodes
    requires forall e :: e in g.edges ==> e.0 in g.nodes && e.1 in g.nodes
    ensures n in PrunedUpTo(g, n).nodes
    ensures |SuccessorsOf(PrunedUpTo(g, n), n)| == 0 && |PredecessorsOf(PrunedUpTo(g, n), n)| == 0
            <==> !Linked(g.edges, n)
  {
    var h := PrunedUpTo(g, n);
    forall e | e in h.edges ensures e.0 in h.nodes && e.1 in h.nodes {
      assert Linked(g.edges, e.0) && Linked(g.edges, e.1);
    }
    IsolatedIffUnlinked(h, n);
  }

  /** Removing an unlinked node leaves the edges alone. */
  lemma UnlinkedEdges(edges: set<(int, int)>, n: int)
    requires !Linked(edges, n)
    ensures (set e | e in edges && e.0 != n && e.1 != n) == edges
  {
  }

  /** The pruning loop of app.py:73-75, run on `g` over `range(count)`. */
  method PruneIsolated(g: DiGraph, count: nat)
    requires forall x :: 0 <= x < count ==> x in g.nodes
    requires forall e :: e in g.edges ==> e.0 in g.nodes && e.1 in g.nodes
    modifies g
    ensures g.Value() == Pruned(old(g.Value()), count)
  {
    ghost var g0 := g.Value();
    KeepNone(g0.nodes, g0.edges);
    for n := 0 to count
      invariant g.Value() == PrunedUpTo(g0, n)
    {
      PruneTest(g0, n);
      var isolated := |g.Successors(n)| == 0 && |g.Predecessors(n)| == 0;
      KeepStep(g0.nodes, g0.edges, n);
      KeptLabelsStep(g0.labels, g0.edges, n);
      if isolated {
        UnlinkedEdges(g0.edges, n);
        g.RemoveNode(n);
      }
    }
  }

  /** Firm `x` is chosen by some product of `ps`. */
  predicate Used(ps: seq<seq<int>>, x: int)
  {
    exists i :: 0 <= i < |ps| && x in ps[i]
  }

  /** The products of `ps` are nonempty lists of firms. */
  predicate ProductsOfFirms(fpl: seq<int>, ps: seq<seq<int>>)
  {
    forall i :: 0 <= i < |ps| ==> |ps[i]| > 0 && forall f :: f in ps[i] ==> 0 <= f < FirmCount(fpl)
  }

  /** In the auxiliary graph every product node survives pruning, and a firm
      survives exactly when some accepted product chose it. */
  lemma PrunedAuxNodes(fpl: seq<int>, ps: seq<seq<int>>, x: int)
    requires ProductsOfFirms(fpl, ps)
    ensures var n := FirmCount(fpl);
      x in Pruned(ProductGraph(fpl, ps), n + |ps|).nodes <==> n <= x < n + |ps| || (0 <= x < n && Used(ps, x))
  {
    var n := FirmCount(fpl);
    var edges := AuxEdges(n, ps);
    assert x in Range(0, n + |ps|) <==> 0 <= x < n + |ps| by {
      if 0 <= x < n + |ps| {
        assert Range(0, n + |ps|)[x] == x;
      }
    }
    if n <= x < n + |ps| {
      var f := ps[x - n][0];
      AuxEdgesAt(n, ps, f, x);
      assert Linked(edges, x) by {
        assert (f, x) in edges;
      }
    } else if 0 <= x < n && Used(ps, x) {
      var i :| 0 <= i < |ps| && x in ps[i];
      AuxEdgesAt(n, ps, x, n + i);
      assert Linked(edges, x) by {
        assert (x, n + i) in edges;
      }
    } else if 0 <= x < n && Linked(edges, x) {
      var e :| e in edges && (e.0 == x || e.1 == x);
      AuxEdgesAt(n, ps, e.0, e.1);
    }
  }

  /** Every auxiliary edge runs from a firm to a product node with a larger
      id. */
  lemma AuxEdgesUp(fpl: seq<int>, ps: seq<seq<int>>, u: int, v: int)
    requires ProductsOfFirms(fpl, ps)
    requires (u, v) in AuxEdges(FirmCount(fpl), ps)
    ensures 0 <= u < FirmCount(fpl) <= v < FirmCount(fpl) + |ps|
    ensures u < v
  {
    AuxEdgesAt(FirmCount(fpl), ps, u, v);
  }
}
