/** Renumbering (app.py:77-83): the surviving nodes, in node order, are mapped to
    `0, 1, 2, ...` and the graph is relabelled through that mapping. */
module Renumbering {
  import opened Graphs
  import opened Firms

  /** The `mapping` dict built by the loop of app.py:80-82: each node is sent to
      its position in the node order (a repeated node would keep its last one). */
  function Positions(s: seq<int>): (m: map<int, int>)
    ensures forall x :: x in m <==> x in s
    ensures forall x :: x in m ==> 0 <= m[x] < |s|
    decreases |s|
  {
    if s == [] then map[]
    else
      assert forall x :: x in s[..|s| - 1] ==> x in s;
      assert s == s[..|s| - 1] + [s[|s| - 1]];
      Positions(s[..|s| - 1])[s[|s| - 1] := |s| - 1]
  }

  /** In a list without repeats, the node at index `i` is mapped to `i`. */
  lemma {:induction false} PositionsAt(s: seq<int>, i: int)
    requires Distinct(s)
    requires 0 <= i < |s|
    ensures Positions(s)[s[i]] == i
    decreases |s|
  {
    if i < |s| - 1 {
      PositionsAt(s[..|s| - 1], i);
    }
  }

  /** The mapping is a bijection from the nodes onto `0..|s|-1`. */
  lemma PositionsBijective(s: seq<int>)
    requires Distinct(s)
    ensures Injective(Positions(s))
    ensures forall n :: 0 <= n < |s| ==> s[n] in Positions(s) && Positions(s)[s[n]] == n
  {
    var m := Positions(s);
    forall n | 0 <= n < |s| ensures s[n] in m && m[s[n]] == n {
      PositionsAt(s, n);
    }
    forall x, y | x in m && y in m && m[x] == m[y] ensures x == y {
      var i :| 0 <= i < |s| && s[i] == x;
      var j :| 0 <= j < |s| && s[j] == y;
      PositionsAt(s, i);
      PositionsAt(s, j);
    }
  }

  /** With nodes in increasing order the mapping is strictly monotone. */
  lemma PositionsMonotone(s: seq<int>, x: int, y: int)
    requires Increasing(s)
    requires x in s && y in s && x < y
    ensures Positions(s)[x] < Positions(s)[y]
  {
    var i :| 0 <= i < |s| && s[i] == x;
    var j :| 0 <= j < |s| && s[j] == y;
    PositionsAt(s, i);
    PositionsAt(s, j);
  }

  /** The graph of app.py:83. */
  function Renumbered(g: Graph): Graph
    requires Distinct(g.nodes)
  {
    PositionsBijective(g.nodes);
    Relabelled(g, Positions(g.nodes))
  }

  /** After renumbering the nodes are exactly `0..n-1` in order and every
      edge still joins two nodes. */
  lemma RenumberedNodes(g: Graph)
    requires WellFormed(g)
    ensures Renumbered(g).nodes == Range(0, |g.nodes|)
    ensures WellFormed(Renumbered(g))
  {
    var m := Positions(g.nodes);
    var h := Renumbered(g);
    PositionsBijective(g.nodes);
    assert h.nodes == Range(0, |g.nodes|);
    forall e | e in h.edges ensures e.0 in h.nodes && e.1 in h.nodes {
      var d :| d in g.edges && d.0 in m && d.1 in m && e == (m[d.0], m[d.1]);
      assert h.nodes[e.0] == e.0 && h.nodes[e.1] == e.1;
    }
  }

  /** The node at index `i` keeps its label. */
  lemma RenumberedLabels(g: Graph)
    requires WellFormed(g)
    ensures forall i :: 0 <= i < |g.nodes| && g.nodes[i] in g.labels ==>
      Renumbered(g).nodes[i] in Renumbered(g).labels &&
      Renumbered(g).labels[Renumbered(g).nodes[i]] == g.labels[g.nodes[i]]
  {
    var m := Positions(g.nodes);
    var h := Renumbered(g);
    PositionsBijective(g.nodes);
    forall i | 0 <= i < |g.nodes| && g.nodes[i] in g.labels
      ensures h.nodes[i] in h.labels && h.labels[h.nodes[i]] == g.labels[g.nodes[i]]
    {
      assert h.nodes[i] == m[g.nodes[i]];
    }
  }

  /** When the nodes were in increasing order and every edge went upwards,
      every renumbered edge goes upwards too. */
  lemma RenumberedForward(g: Graph)
    requires WellFormed(g)
    requires Increasing(g.nodes)
    requires forall e :: e in g.edges ==> e.0 < e.1
    ensures forall e :: e in Renumbered(g).edges ==> e.0 < e.1
  {
    var m := Positions(g.nodes);
    var h := Renumbered(g);
    PositionsBijective(g.nodes);
    forall e | e in h.edges ensures e.0 < e.1 {
      var d :| d in g.edges && d.0 in m && d.1 in m && e == (m[d.0], m[d.1]);
      PositionsMonotone(g.nodes, d.0, d.1);
    }
  }

  /** `h` is `g` with every node `x` of `m` renamed `m[x]`: each edge and each
      label of `g` carries over, and every edge of `h` is the image of one. */
  ghost predicate RenamedBy(g: Graph, m: map<int, int>, h: Graph)
  {
    && (forall p, q :: (p, q) in g.edges && p in m && q in m ==> (m[p], m[q]) in h.edges)
    && (forall t, v :: (t, v) in h.edges ==>
          exists p, q :: (p, q) in g.edges && p in m && q in m && m[p] == t && m[q] == v)
    && (forall x :: x in g.labels && x in m ==> m[x] in h.labels && h.labels[m[x]] == g.labels[x])
  }

  /** The renumbered graph is `g` renamed by the positions of its nodes, a
      one-to-one map defined on exactly those nodes. */
  lemma RenumberedRenames(g: Graph)
    requires Distinct(g.nodes)
    ensures var m := Positions(g.nodes);
      && Injective(m)
      && (forall x :: x in m <==> x in g.nodes)
      && RenamedBy(g, m, Renumbered(g))
  {
    var m := Positions(g.nodes);
    var h := Renumbered(g);
    PositionsBijective(g.nodes);
    forall t, v | (t, v) in h.edges
      ensures exists p, q :: (p, q) in g.edges && p in m && q in m && m[p] == t && m[q] == v
    {
      var d := RelabelledEdgeSource(g, m, t, v);
      assert d.0 in m && d.1 in m && (d.0, d.1) in g.edges;
    }
    forall x | x in g.labels && x in m ensures m[x] in h.labels && h.labels[m[x]] == g.labels[x] {
      RelabelledLabelAt(g, m, x);
    }
  }

  /** The loop of app.py:78-82 over the nodes of `g`. */
  method NumberNodes(g: DiGraph) returns (mapping: map<int, int>)
    ensures mapping == Positions(g.nodes)
  {
    mapping := map[];
    var newNode := 0;
    for i := 0 to |g.nodes|
      invariant newNode == i
      invariant mapping == Positions(g.nodes[..i])
    {
      assert g.nodes[..i + 1][..i] == g.nodes[..i];
      mapping := mapping[g.nodes[i] := newNode];
      newNode := newNode + 1;
    }
    assert g.nodes[..|g.nodes|] == g.nodes;
  }

  /** Lines 78-83 together: `G` becomes the renumbered graph. */
  method RenumberGraph(g: DiGraph) returns (h: DiGraph)
    requires Distinct(g.nodes)
    ensures fresh(h)
    ensures h.Value() == Renumbered(g.Value())
  {
    var mapping := NumberNodes(g);
    PositionsBijective(g.nodes);
    h := RelabelNodes(g, mapping);
  }
}
