/** The part of a networkx `DiGraph` that the generator relies on: nodes kept in
    insertion order (removal keeps the order of the others), a "label" node
    attribute, and a set of directed edges. */
module Graphs {

  /** The abstract value of a directed graph. */
  datatype Graph = Graph(nodes: seq<int>, labels: map<int, int>, edges: set<(int, int)>)

  predicate Distinct(s: seq<int>)
  {
    forall i, j :: 0 <= i < j < |s| ==> s[i] != s[j]
  }

  predicate Increasing(s: seq<int>)
  {
    forall i, j :: 0 <= i < j < |s| ==> s[i] < s[j]
  }

  predicate Injective(m: map<int, int>)
  {
    forall x, y :: x in m && y in m && m[x] == m[y] ==> x == y
  }

  /** No node occurs twice and every edge joins two nodes of the graph. */
  predicate WellFormed(g: Graph)
  {
    && Distinct(g.nodes)
    && forall e :: e in g.edges ==> e.0 in g.nodes && e.1 in g.nodes
  }

  /** The members of `ns`, in order, that have an edge into `v`. */
  function Sources(ns: seq<int>, edges: set<(int, int)>, v: int): (r: seq<int>)
    ensures forall u :: u in r <==> u in ns && (u, v) in edges
    ensures Increasing(ns) ==> Increasing(r)
    decreases |ns|
  {
    if ns == [] then []
    else
      var init := Sources(ns[..|ns| - 1], edges, v);
      var last := ns[|ns| - 1];
      assert forall u :: u in ns[..|ns| - 1] ==> u in ns;
      assert Increasing(ns) ==> Increasing(init + [last]) by {
        if Increasing(ns) {
          assert Increasing(ns[..|ns| - 1]);
          forall k | 0 <= k < |init| ensures init[k] < last {
            assert init[k] in init;
            var i :| 0 <= i < |ns| - 1 && ns[i] == init[k];
          }
        }
      }
      if (last, v) in edges then init + [last] else init
  }

  /** The members of `ns`, in order, that have an edge out of `u` into the graph. */
  function Targets(ns: seq<int>, edges: set<(int, int)>, u: int): (r: seq<int>)
    ensures forall v :: v in r <==> v in ns && (u, v) in edges
    decreases |ns|
  {
    if ns == [] then []
    else
      var init := Targets(ns[..|ns| - 1], edges, u);
      var last := ns[|ns| - 1];
      if (u, last) in edges then init + [last] else init
  }

  /** `G.predecessors(v)`, listed in node order. */
  function PredecessorsOf(g: Graph, v: int): seq<int>
  {
    Sources(g.nodes, g.edges, v)
  }

  /** `G.successors(u)`, listed in node order. */
  function SuccessorsOf(g: Graph, u: int): seq<int>
  {
    Targets(g.nodes, g.edges, u)
  }

  /** `s` without the occurrences of `x`. */
  function Without(s: seq<int>, x: int): (r: seq<int>)
    ensures forall y :: y in r <==> y in s && y != x
    decreases |s|
  {
    if s == [] then []
    else
      var init := Without(s[..|s| - 1], x);
      assert forall y :: y in s[..|s| - 1] ==> y in s;
      if s[|s| - 1] == x then init else init + [s[|s| - 1]]
  }

  /** The graph that `nx.relabel_nodes(g, m)` returns: every node, label and edge
      endpoint renamed through `m`, the node order kept. */
  function Relabelled(g: Graph, m: map<int, int>): Graph
    requires forall i :: 0 <= i < |g.nodes| ==> g.nodes[i] in m
    requires Injective(m)
  {
    Graph(seq(|g.nodes|, i requires 0 <= i < |g.nodes| => m[g.nodes[i]]),
          map x | x in g.labels && x in m :: m[x] := g.labels[x],
          set e | e in g.edges && e.0 in m && e.1 in m :: (m[e.0], m[e.1]))
  }

  /** A relabelled node keeps its label. */
  lemma RelabelledLabelAt(g: Graph, m: map<int, int>, x: int)
    requires forall i :: 0 <= i < |g.nodes| ==> g.nodes[i] in m
    requires Injective(m)
    requires x in g.labels && x in m
    ensures m[x] in Relabelled(g, m).labels && Relabelled(g, m).labels[m[x]] == g.labels[x]
  {
  }

  /** A relabelled edge is the image of an edge. */
  lemma RelabelledEdgeSource(g: Graph, m: map<int, int>, u: int, w: int) returns (d: (int, int))
    requires forall i :: 0 <= i < |g.nodes| ==> g.nodes[i] in m
    requires Injective(m)
    requires (u, w) in Relabelled(g, m).edges
    ensures d in g.edges && d.0 in m && d.1 in m && m[d.0] == u && m[d.1] == w
  {
    d :| d in g.edges && d.0 in m && d.1 in m && (u, w) == (m[d.0], m[d.1]);
  }

  /** A mutable directed graph (networkx `DiGraph`). */
  class DiGraph {
    var nodes: seq<int>
    var labels: map<int, int>
    var edges: set<(int, int)>

    function Value(): Graph
      reads this
    {
      Graph(nodes, labels, edges)
    }

    /** `nx.DiGraph()` */
    constructor ()
      ensures Value() == Graph([], map[], {})
    {
      nodes, labels, edges := [], map[], {};
    }

    /** `G.add_node(n)`: a node already present keeps its place. */
    method AddNode(n: int)
      modifies this
      ensures nodes == if n in old(nodes) then old(nodes) else old(nodes) + [n]
      ensures labels == old(labels) && edges == old(edges)
    {
      if n !in nodes {
        nodes := nodes + [n];
      }
    }

    /** `G.nodes[n]["label"] = k` */
    method SetLabel(n: int, k: int)
      requires n in nodes
      modifies this
      ensures nodes == old(nodes) && edges == old(edges)
      ensures labels == old(labels)[n := k]
    {
      labels := labels[n := k];
    }

    /** `G.add_edge(u, v)`: endpoints not yet present are added as nodes first. */
    method AddEdge(u: int, v: int)
      modifies this
      ensures nodes == old(nodes) + (if u in old(nodes) then [] else [u])
                                  + (if v in old(nodes) || v == u then [] else [v])
      ensures labels == old(labels)
      ensures edges == old(edges) + {(u, v)}
    {
      if u !in nodes {
        nodes := nodes + [u];
      }
      if v !in nodes {
        nodes := nodes + [v];
      }
      edges := edges + {(u, v)};
    }

    /** `G.remove_node(n)`: the node, its attributes and its incident edges go. */
    method RemoveNode(n: int)
      requires n in nodes
      modifies this
      ensures nodes == Without(old(nodes), n)
      ensures labels == old(labels) - {n}
      ensures edges == set e | e in old(edges) && e.0 != n && e.1 != n
    {
      nodes := Without(nodes, n);
      labels := labels - {n};
      edges := set e | e in edges && e.0 != n && e.1 != n;
    }

    /** `G.predecessors(v)` */
    function Predecessors(v: int): seq<int>
      reads this
    {
      PredecessorsOf(Value(), v)
    }

    /** `G.successors(u)` */
    function Successors(u: int): seq<int>
      reads this
    {
      SuccessorsOf(Value(), u)
    }
  }

  /** `nx.relabel_nodes(g, mapping)` with its default `copy=True`: a new graph. */
  method RelabelNodes(g: DiGraph, mapping: map<int, int>) returns (h: DiGraph)
    requires forall i :: 0 <= i < |g.nodes| ==> g.nodes[i] in mapping
    requires Injective(mapping)
    ensures fresh(h)
    ensures h.Value() == Relabelled(g.Value(), mapping)
  {
    var r := Relabelled(g.Value(), mapping);
    h := new DiGraph();
    h.nodes, h.labels, h.edges := r.nodes, r.labels, r.edges;
  }
}
