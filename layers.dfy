/** Product rebuild and layered edge compilation (app.py:85-105): every node with
    predecessors yields a product whose firms are grouped by label, and each
    product joins every firm of one active label to every firm of the next. */
module Layers {
  import opened Graphs

  /** The firm-only graph `OG`: its node set and its edge set. */
  datatype SupplyGraph = SupplyGraph(nodes: set<int>, edges: set<(int, int)>)

  /** Every firm of `preds` carries a label in `range(L)`. */
  predicate LabelledWithin(preds: seq<int>, labels: map<int, int>, L: nat)
  {
    forall f :: f in preds ==> f in labels && 0 <= labels[f] < L
  }

  /** Every edge source of `g` carries a label in `range(L)`. */
  predicate LabelledSources(g: Graph, L: nat)
  {
    forall e :: e in g.edges ==> e.0 in g.labels && 0 <= g.labels[e.0] < L
  }

  /** The `product` dict of app.py:90-93, indexed by label: the firms of `preds`
      with label `k`, in the order of `preds`, under key `k`. */
  function Group(preds: seq<int>, labels: map<int, int>, L: nat): (p: seq<seq<int>>)
    requires LabelledWithin(preds, labels, L)
    ensures |p| == L
    ensures forall k, f :: 0 <= k < L ==> (f in p[k] <==> f in preds && labels[f] == k)
    decreases |preds|
  {
    if preds == [] then seq(L, _ => [])
    else
      var last := preds[|preds| - 1];
      assert forall f :: f in preds[..|preds| - 1] ==> f in preds;
      assert preds == preds[..|preds| - 1] + [last];
      var p := Group(preds[..|preds| - 1], labels, L);
      p[labels[last] := p[labels[last]] + [last]]
  }

  /** `active_labels`: the labels with at least one firm, in increasing order. */
  function Active(p: seq<seq<int>>): seq<int>
    decreases |p|
  {
    if p == [] then []
    else
      var init := Active(p[..|p| - 1]);
      if p[|p| - 1] != [] then init + [|p| - 1] else init
  }

  /** `active_labels` holds exactly the labels with firms, in increasing order. */
  lemma {:induction false} ActiveLabels(p: seq<seq<int>>)
    ensures forall k :: k in Active(p) <==> 0 <= k < |p| && p[k] != []
    ensures Increasing(Active(p))
    decreases |p|
  {
    if p != [] {
      var init := Active(p[..|p| - 1]);
      ActiveLabels(p[..|p| - 1]);
      assert forall i :: 0 <= i < |init| ==> init[i] in init;
    }
  }

  /** Every pair from a firm of `a` to a firm of `b`. */
  function Cross(a: seq<int>, b: seq<int>): (r: set<(int, int)>)
    ensures forall u, v :: (u, v) in r <==> u in a && v in b
  {
    set u, v | u in a && v in b :: (u, v)
  }

  /** The edges the loop of app.py:102-105 adds for the labels `act`. */
  function Links(p: seq<seq<int>>, act: seq<int>): set<(int, int)>
    requires forall i :: 0 <= i < |act| ==> 0 <= act[i] < |p|
    decreases |act|
  {
    if |act| < 2 then {}
    else Links(p, act[..|act| - 1]) + Cross(p[act[|act| - 2]], p[act[|act| - 1]])
  }

  /** The edges one product contributes. */
  function ProductLinks(p: seq<seq<int>>): set<(int, int)>
  {
    ActiveIndexes(p);
    Links(p, Active(p))
  }

  /** The edges of `OG` once the products `ps` have been compiled. */
  function CompiledEdges(ps: seq<seq<seq<int>>>): (r: set<(int, int)>)
    ensures forall e :: e in r <==> exists i :: 0 <= i < |ps| && e in ProductLinks(ps[i])
    decreases |ps|
  {
    if ps == [] then {}
    else
      var init := ps[..|ps| - 1];
      assert forall i :: 0 <= i < |init| ==> init[i] == ps[i];
      CompiledEdges(init) + ProductLinks(ps[|ps| - 1])
  }

  /** The nodes of `ns` that have predecessors in `g`, in order. */
  function Producers(g: Graph, ns: seq<int>): (r: seq<int>)
    ensures forall v :: v in r <==> v in ns && |PredecessorsOf(g, v)| > 0
    decreases |ns|
  {
    if ns == [] then []
    else
      var init := Producers(g, ns[..|ns| - 1]);
      var last := ns[|ns| - 1];
      assert forall v :: v in ns[..|ns| - 1] ==> v in ns;
      if |PredecessorsOf(g, last)| > 0 then init + [last] else init
  }

  /** `product_list` after the loop of app.py:88-95 has visited `ns`: the `i`-th
      product groups the predecessors of the `i`-th node with predecessors. */
  function RebuiltFrom(g: Graph, ns: seq<int>, L: nat): (r: seq<seq<seq<int>>>)
    requires LabelledSources(g, L)
    ensures |r| == |Producers(g, ns)|
    ensures forall i :: 0 <= i < |r| ==> r[i] == Group(PredecessorsOf(g, Producers(g, ns)[i]), g.labels, L)
    decreases |ns|
  {
    if ns == [] then []
    else
      var init := RebuiltFrom(g, ns[..|ns| - 1], L);
      var preds := PredecessorsOf(g, ns[|ns| - 1]);
      if |preds| > 0 then init + [Group(preds, g.labels, L)] else init
  }

  /** `node_set` after the loop of app.py:88-95 has visited `ns`. */
  function NodeSetFrom(g: Graph, ns: seq<int>): (r: set<int>)
    ensures forall u :: u in r <==> exists v :: v in ns && u in PredecessorsOf(g, v)
    decreases |ns|
  {
    if ns == [] then {}
    else
      var init := ns[..|ns| - 1];
      assert forall v :: v in init ==> v in ns;
      assert ns == init + [ns[|ns| - 1]];
      var preds := PredecessorsOf(g, ns[|ns| - 1]);
      NodeSetFrom(g, init) + set u | u in preds
  }

  function Rebuilt(g: Graph, L: nat): seq<seq<seq<int>>>
    requires LabelledSources(g, L)
  {
    RebuiltFrom(g, g.nodes, L)
  }

  function NodeSet(g: Graph): set<int>
  {
    NodeSetFrom(g, g.nodes)
  }

  /** Both endpoints of every edge of `edges`. */
  function Endpoints(edges: set<(int, int)>): (r: set<int>)
    ensures forall x :: x in r <==> exists e :: e in edges && (x == e.0 || x == e.1)
  {
    (set e | e in edges :: e.0) + (set e | e in edges :: e.1)
  }

  /** `OG` as built by app.py:98-105: `add_nodes_from(node_set)`, then every
      `add_edge`, which adds its endpoints as nodes too. */
  function Compiled(products: seq<seq<seq<int>>>, nodeSet: set<int>): SupplyGraph
  {
    var edges := CompiledEdges(products);
    SupplyGraph(nodeSet + Endpoints(edges), edges)
  }

  lemma {:induction false} LinksComplete(p: seq<seq<int>>, act: seq<int>, i: int, u: int, v: int)
    requires forall k :: 0 <= k < |act| ==> 0 <= act[k] < |p|
    requires 0 <= i < |act| - 1 && u in p[act[i]] && v in p[act[i + 1]]
    ensures (u, v) in Links(p, act)
    decreases |act|
  {
    if i == |act| - 2 {
      assert (u, v) in Cross(p[act[|act| - 2]], p[act[|act| - 1]]);
    } else {
      var init := act[..|act| - 1];
      assert init[i] == act[i] && init[i + 1] == act[i + 1];
      LinksComplete(p, init, i, u, v);
    }
  }

  lemma {:induction false} LinksSound(p: seq<seq<int>>, act: seq<int>, u: int, v: int) returns (i: int)
    requires forall k :: 0 <= k < |act| ==> 0 <= act[k] < |p|
    requires (u, v) in Links(p, act)
    ensures 0 <= i < |act| - 1 && u in p[act[i]] && v in p[act[i + 1]]
    decreases |act|
  {
    var init := act[..|act| - 1];
    if (u, v) in Cross(p[act[|act| - 2]], p[act[|act| - 1]]) {
      i := |act| - 2;
    } else {
      i := LinksSound(p, init, u, v);
      assert init[i] == act[i] && init[i + 1] == act[i + 1];
    }
  }

  /** Labels `a < b` are neighbouring active labels of product `p`. */
  predicate Consecutive(p: seq<seq<int>>, a: int, b: int)
  {
    && 0 <= a < b < |p|
    && p[a] != [] && p[b] != []
    && forall k :: a < k < b ==> p[k] == []
  }

  /** In an increasing list the order of values is the order of positions. */
  lemma IncreasingOrder(s: seq<int>, i: int, j: int)
    requires Increasing(s)
    requires 0 <= i < |s| && 0 <= j < |s|
    ensures s[i] < s[j] <==> i < j
  {
  }

  /** The labels joined by one step of the loop of app.py:102 are neighbouring
      active labels. */
  lemma ActiveStepConsecutive(p: seq<seq<int>>, i: int)
    requires 0 <= i < |Active(p)| - 1
    ensures Consecutive(p, Active(p)[i], Active(p)[i + 1])
  {
    var act := Active(p);
    ActiveLabels(p);
    assert act[i] in act && act[i + 1] in act;
    IncreasingOrder(act, i, i + 1);
    forall k | act[i] < k < act[i + 1] ensures p[k] == [] {
      forall j | 0 <= j < |act| ensures act[j] != k {
        IncreasingOrder(act, j, i);
        IncreasingOrder(act, i + 1, j);
      }
    }
  }

  /** Neighbouring active labels are joined by one step of the loop of app.py:102. */
  lemma ConsecutiveActiveStep(p: seq<seq<int>>, a: int, b: int) returns (i: int)
    requires Consecutive(p, a, b)
    ensures 0 <= i < |Active(p)| - 1 && Active(p)[i] == a && Active(p)[i + 1] == b
  {
    var act := Active(p);
    ActiveLabels(p);
    assert a in act && b in act;
    i :| 0 <= i < |act| && act[i] == a;
    var j :| 0 <= j < |act| && act[j] == b;
    IncreasingOrder(act, i, j);
    assert act[i + 1] in act;
    IncreasingOrder(act, i, i + 1);
    IncreasingOrder(act, j, i + 1);
  }

  lemma ProductLinksSound(p: seq<seq<int>>, u: int, v: int) returns (a: int, b: int)
    requires (u, v) in ProductLinks(p)
    ensures Consecutive(p, a, b) && u in p[a] && v in p[b]
  {
    var act := Active(p);
    ActiveIndexes(p);
    var i := LinksSound(p, act, u, v);
    ActiveStepConsecutive(p, i);
    a, b := act[i], act[i + 1];
  }

  lemma ProductLinksComplete(p: seq<seq<int>>, a: int, b: int, u: int, v: int)
    requires Consecutive(p, a, b) && u in p[a] && v in p[b]
    ensures (u, v) in ProductLinks(p)
  {
    var i := ConsecutiveActiveStep(p, a, b);
    ActiveIndexes(p);
    LinksComplete(p, Active(p), i, u, v);
  }

  /** A product joins `u` to `v` exactly when `u` lies on one active label and
      `v` on the next active one. */
  lemma ProductLinksAt(p: seq<seq<int>>, u: int, v: int)
    ensures (u, v) in ProductLinks(p)
        <==> exists a, b :: Consecutive(p, a, b) && u in p[a] && v in p[b]
  {
    if (u, v) in ProductLinks(p) {
      var a, b := ProductLinksSound(p, u, v);
    }
    if exists a, b :: Consecutive(p, a, b) && u in p[a] && v in p[b] {
      var a, b :| Consecutive(p, a, b) && u in p[a] && v in p[b];
      ProductLinksComplete(p, a, b, u, v);
    }
  }

  /** A product whose firms all carry one label contributes no edge. */
  lemma SingleLayerNoLinks(p: seq<seq<int>>)
    requires |Active(p)| <= 1
    ensures ProductLinks(p) == {}
  {
  }

  /** Firms `u` and `w` of `preds` sit on neighbouring labels: `u`'s label is
      below `w`'s and no firm of `preds` has a label in between. */
  predicate Adjacent(preds: seq<int>, labels: map<int, int>, u: int, w: int)
  {
    && u in preds && w in preds
    && u in labels && w in labels
    && labels[u] < labels[w]
    && forall x :: x in preds && x in labels ==> !(labels[u] < labels[x] < labels[w])
  }

  /** The predecessors of a node are edge sources, hence labelled. */
  lemma PredecessorsLabelled(g: Graph, L: nat, v: int)
    requires LabelledSources(g, L)
    ensures LabelledWithin(PredecessorsOf(g, v), g.labels, L)
  {
    forall f | f in PredecessorsOf(g, v) ensures f in g.labels && 0 <= g.labels[f] < L {
      assert (f, v) in g.edges;
    }
  }

  /** A label that no firm of `preds` carries gets an empty list. */
  lemma {:induction false} GroupEmpty(preds: seq<int>, labels: map<int, int>, L: nat, k: int)
    requires LabelledWithin(preds, labels, L)
    requires 0 <= k < L
    requires forall f :: f in preds ==> labels[f] != k
    ensures Group(preds, labels, L)[k] == []
    decreases |preds|
  {
    if preds != [] {
      assert forall f :: f in preds[..|preds| - 1] ==> f in preds;
      GroupEmpty(preds[..|preds| - 1], labels, L, k);
    }
  }

  /** `p` files the firms of `preds` under their labels. */
  ghost predicate Files(p: seq<seq<int>>, preds: seq<int>, labels: map<int, int>)
  {
    forall k, f :: 0 <= k < |p| ==> (f in p[k] <==> f in preds && f in labels && labels[f] == k)
  }

  lemma GroupLinksSound(preds: seq<int>, labels: map<int, int>, L: nat, u: int, w: int)
    requires LabelledWithin(preds, labels, L)
    requires (u, w) in ProductLinks(Group(preds, labels, L))
    ensures Adjacent(preds, labels, u, w)
  {
    FiledLinksSound(Group(preds, labels, L), preds, labels, u, w);
  }

  lemma FiledLinksSound(p: seq<seq<int>>, preds: seq<int>, labels: map<int, int>, u: int, w: int)
    requires Files(p, preds, labels)
    requires (u, w) in ProductLinks(p)
    ensures Adjacent(preds, labels, u, w)
  {
    var a, b := ProductLinksSound(p, u, w);
    assert labels[u] == a && labels[w] == b;
    forall x | x in preds && x in labels ensures !(a < labels[x] < b) {
      if 0 <= labels[x] < |p| {
        assert x in p[labels[x]];
        assert p[labels[x]] != [];
      }
    }
  }

  lemma GroupLinksComplete(preds: seq<int>, labels: map<int, int>, L: nat, u: int, w: int)
    requires LabelledWithin(preds, labels, L)
    requires Adjacent(preds, labels, u, w)
    ensures (u, w) in ProductLinks(Group(preds, labels, L))
  {
    var p := Group(preds, labels, L);
    var a, b := labels[u], labels[w];
    forall k | a < k < b ensures p[k] == [] {
      GroupEmpty(preds, labels, L, k);
    }
    ProductLinksComplete(p, a, b, u, w);
  }

  /** Edge `u -> w` of one product: `u` and `w` are among its firms, on
      neighbouring labels among the labels of its firms. */
  lemma GroupLinksAt(preds: seq<int>, labels: map<int, int>, L: nat, u: int, w: int)
    requires LabelledWithin(preds, labels, L)
    ensures (u, w) in ProductLinks(Group(preds, labels, L)) <==> Adjacent(preds, labels, u, w)
  {
    if (u, w) in ProductLinks(Group(preds, labels, L)) {
      GroupLinksSound(preds, labels, L, u, w);
    }
    if Adjacent(preds, labels, u, w) {
      GroupLinksComplete(preds, labels, L, u, w);
    }
  }

  /** The product an edge of `OG` comes from. */
  lemma OutputEdgeSource(g: Graph, L: nat, u: int, w: int) returns (v: int)
    requires LabelledSources(g, L)
    requires (u, w) in CompiledEdges(Rebuilt(g, L))
    ensures v in g.nodes && Adjacent(PredecessorsOf(g, v), g.labels, u, w)
  {
    var ps := Rebuilt(g, L);
    var prods := Producers(g, g.nodes);
    var i :| 0 <= i < |ps| && (u, w) in ProductLinks(ps[i]);
    v := prods[i];
    assert v in prods;
    PredecessorsLabelled(g, L, v);
    GroupLinksSound(PredecessorsOf(g, v), g.labels, L, u, w);
  }

  lemma OutputEdgeMade(g: Graph, L: nat, v: int, u: int, w: int)
    requires LabelledSources(g, L)
    requires v in g.nodes && Adjacent(PredecessorsOf(g, v), g.labels, u, w)
    ensures (u, w) in CompiledEdges(Rebuilt(g, L))
  {
    var ps := Rebuilt(g, L);
    var prods := Producers(g, g.nodes);
    PredecessorsLabelled(g, L, v);
    GroupLinksComplete(PredecessorsOf(g, v), g.labels, L, u, w);
    assert v in prods;
    var i :| 0 <= i < |prods| && prods[i] == v;
    assert (u, w) in ProductLinks(ps[i]);
  }

  /** Every edge of `OG` joins two firms of one product on neighbouring labels
      of that product (so its label rises and it is no self-loop), and every
      such pair is an edge. */
  lemma OutputEdgesAt(g: Graph, L: nat, u: int, w: int)
    requires LabelledSources(g, L)
    ensures (u, w) in CompiledEdges(Rebuilt(g, L))
        <==> exists v :: v in g.nodes && Adjacent(PredecessorsOf(g, v), g.labels, u, w)
  {
    if (u, w) in CompiledEdges(Rebuilt(g, L)) {
      var v := OutputEdgeSource(g, L, u, w);
    }
    if exists v :: v in g.nodes && Adjacent(PredecessorsOf(g, v), g.labels, u, w) {
      var v :| v in g.nodes && Adjacent(PredecessorsOf(g, v), g.labels, u, w);
      OutputEdgeMade(g, L, v, u, w);
    }
  }

  /** Output edges climb labels: the source's label is below the target's. */
  lemma OutputEdgesClimb(g: Graph, L: nat, u: int, w: int)
    requires LabelledSources(g, L)
    requires (u, w) in CompiledEdges(Rebuilt(g, L))
    ensures u in g.labels && w in g.labels && g.labels[u] < g.labels[w]
    ensures u != w
  {
    var v := OutputEdgeSource(g, L, u, w);
  }

  /** The nodes `OG` ends with are exactly `node_set`, the firms that are
      predecessors of some node: every edge endpoint is one already. */
  lemma OutputNodes(g: Graph, L: nat)
    requires LabelledSources(g, L)
    ensures Compiled(Rebuilt(g, L), NodeSet(g)).nodes == NodeSet(g)
    ensures forall u :: u in NodeSet(g) <==> exists v :: v in g.nodes && u in g.nodes && (u, v) in g.edges
  {
    var edges := CompiledEdges(Rebuilt(g, L));
    forall x | x in Endpoints(edges) ensures x in NodeSet(g) {
      var e :| e in edges && (x == e.0 || x == e.1);
      var v := OutputEdgeSource(g, L, e.0, e.1);
    }
  }

  /** When the firms of every product share one label, no two of them are
      adjacent. */
  lemma OneLabelNotAdjacent(g: Graph, L: nat)
    requires LabelledSources(g, L)
    requires forall v, u, w :: v in g.nodes && u in PredecessorsOf(g, v) && w in PredecessorsOf(g, v)
               ==> g.labels[u] == g.labels[w]
    ensures forall v, u, w :: v in g.nodes ==> !Adjacent(PredecessorsOf(g, v), g.labels, u, w)
  {
  }

  /** The output graph may hold isolated nodes: when the firms of every product
      share one label, `OG` gets every such firm as a node but no edge at all. */
  lemma OneLabelProductsGiveNoEdges(g: Graph, L: nat)
    requires LabelledSources(g, L)
    requires forall v, u, w :: v in g.nodes && u in PredecessorsOf(g, v) && w in PredecessorsOf(g, v)
               ==> g.labels[u] == g.labels[w]
    ensures Compiled(Rebuilt(g, L), NodeSet(g)) == SupplyGraph(NodeSet(g), {})
  {
    var edges := CompiledEdges(Rebuilt(g, L));
    OneLabelNotAdjacent(g, L);
    forall e | e in edges ensures false {
      var v := OutputEdgeSource(g, L, e.0, e.1);
    }
    assert Endpoints(edges) == {};
  }

  /** The loop of app.py:90-93: start from an empty list per label and append
      every firm of `preds` under its label. */
  method GroupByLabel(preds: seq<int>, labels: map<int, int>, L: nat) returns (product: seq<seq<int>>)
    requires LabelledWithin(preds, labels, L)
    ensures product == Group(preds, labels, L)
  {
    product := seq(L, _ => []);
    for j := 0 to |preds|
      invariant product == Group(preds[..j], labels, L)
    {
      assert preds[..j + 1][..j] == preds[..j];
      var firm := preds[j];
      product := product[labels[firm] := product[labels[firm]] + [firm]];
    }
    assert preds[..|preds|] == preds;
  }

  /** One more node of the loop of app.py:88-95. */
  lemma RebuiltStep(g: Graph, ns: seq<int>, L: nat, i: nat)
    requires LabelledSources(g, L)
    requires i < |ns|
    ensures var preds := PredecessorsOf(g, ns[i]);
      && RebuiltFrom(g, ns[..i + 1], L)
         == (if |preds| > 0 then RebuiltFrom(g, ns[..i], L) + [Group(preds, g.labels, L)] else RebuiltFrom(g, ns[..i], L))
      && NodeSetFrom(g, ns[..i + 1]) == NodeSetFrom(g, ns[..i]) + (set u | u in preds)
  {
    assert ns[..i + 1][..i] == ns[..i];
  }

  /** The loop of app.py:86-95 over the nodes of `g`. */
  method RebuildProducts(g: DiGraph, L: nat) returns (products: seq<seq<seq<int>>>, nodeSet: set<int>)
    requires LabelledSources(g.Value(), L)
    ensures products == Rebuilt(g.Value(), L)
    ensures nodeSet == NodeSet(g.Value())
  {
    products, nodeSet := [], {};
    for i := 0 to |g.nodes|
      invariant products == RebuiltFrom(g.Value(), g.nodes[..i], L)
      invariant nodeSet == NodeSetFrom(g.Value(), g.nodes[..i])
    {
      RebuiltStep(g.Value(), g.nodes, L, i);
      var node := g.nodes[i];
      var preds := g.Predecessors(node);
      if |preds| > 0 {
        PredecessorsLabelled(g.Value(), L, node);
        var product := GroupByLabel(preds, g.labels, L);
        products := products + [product];
        nodeSet := nodeSet + set u | u in preds;
      }
    }
    assert g.nodes[..|g.nodes|] == g.nodes;
  }

  /** Adding one pair to `Cross(a, b[..y])`. */
  lemma CrossRow(x: int, b: seq<int>, y: int)
    requires 0 <= y < |b|
    ensures Cross([x], b[..y + 1]) == Cross([x], b[..y]) + {(x, b[y])}
  {
    assert b[..y + 1] == b[..y] + [b[y]];
  }

  /** Adding one row to `Cross(a[..x], b)`. */
  lemma CrossRows(a: seq<int>, b: seq<int>, x: int)
    requires 0 <= x < |a|
    ensures Cross(a[..x + 1], b) == Cross(a[..x], b) + Cross([a[x]], b)
  {
    assert a[..x + 1] == a[..x] + [a[x]];
  }

  /** `add_edge(a, b)` adds `a` and `b` to the nodes. */
  lemma EndpointsAdd(edges: set<(int, int)>, a: int, b: int)
    ensures Endpoints(edges + {(a, b)}) == Endpoints(edges) + {a, b}
  {
    assert (a, b) in edges + {(a, b)};
  }

  /** One more step of the loop of app.py:102 adds one more pair of layers. */
  lemma LinksStep(p: seq<seq<int>>, act: seq<int>, i: int)
    requires forall k :: 0 <= k < |act| ==> 0 <= act[k] < |p|
    requires 0 <= i < |act| - 1
    ensures Links(p, act[..i + 2]) == Links(p, act[..i + 1]) + Cross(p[act[i]], p[act[i + 1]])
  {
    assert act[..i + 2][..i + 1] == act[..i + 1];
  }

  lemma ActiveIndexes(p: seq<seq<int>>)
    ensures forall k :: 0 <= k < |Active(p)| ==> 0 <= Active(p)[k] < |p|
  {
    var act := Active(p);
    ActiveLabels(p);
    assert forall k :: 0 <= k < |act| ==> act[k] in act;
  }

  lemma LinksGrow(p: seq<seq<int>>, act: seq<int>, i: int, edges0: set<(int, int)>)
    requires forall k :: 0 <= k < |act| ==> 0 <= act[k] < |p|
    requires 0 <= i < |act| - 1
    ensures edges0 + Links(p, act[..i + 1]) + Cross(p[act[i]], p[act[i + 1]]) == edges0 + Links(p, act[..i + 2])
  {
    LinksStep(p, act, i);
  }

  /** `OG.add_edge(x, y)` for every `x` of `lower` and `y` of `upper` (app.py:103-105). */
  method JoinLayers(lower: seq<int>, upper: seq<int>, ghost base: set<int>, edges0: set<(int, int)>, nodes0: set<int>)
    returns (edges: set<(int, int)>, nodes: set<int>)
    requires nodes0 == base + Endpoints(edges0)
    ensures edges == edges0 + Cross(lower, upper)
    ensures nodes == base + Endpoints(edges)
  {
    edges, nodes := edges0, nodes0;
    for x := 0 to |lower|
      invariant edges == edges0 + Cross(lower[..x], upper)
      invariant nodes == base + Endpoints(edges)
    {
      ghost var done := edges;
      for y := 0 to |upper|
        invariant edges == done + Cross([lower[x]], upper[..y])
        invariant nodes == base + Endpoints(edges)
      {
        CrossRow(lower[x], upper, y);
        EndpointsAdd(edges, lower[x], upper[y]);
        edges := edges + {(lower[x], upper[y])};
        nodes := nodes + {lower[x], upper[y]};
      }
      assert upper[..|upper|] == upper;
      CrossRows(lower, upper, x);
    }
    assert lower[..|lower|] == lower;
  }

  /** The edges of one product (app.py:101-105): each active label joined to the next. */
  method LinkProduct(product: seq<seq<int>>, ghost base: set<int>, edges0: set<(int, int)>, nodes0: set<int>)
    returns (edges: set<(int, int)>, nodes: set<int>)
    requires nodes0 == base + Endpoints(edges0)
    ensures edges == edges0 + ProductLinks(product)
    ensures nodes == base + Endpoints(edges)
  {
    var active := Active(product);
    ActiveIndexes(product);
    edges, nodes := edges0, nodes0;
    if |active| > 0 {
      for i := 0 to |active| - 1
        invariant edges == edges0 + Links(product, active[..i + 1])
        invariant nodes == base + Endpoints(edges)
      {
        LinksGrow(product, active, i, edges0);
        edges, nodes := JoinLayers(product[active[i]], product[active[i + 1]], base, edges, nodes);
      }
      assert active[..|active|] == active;
    }
  }

  /** The loops of app.py:98-105: `OG` starts from `node_set` and receives the
      edges of every product. */
  method CompileLayers(products: seq<seq<seq<int>>>, nodeSet: set<int>) returns (og: SupplyGraph)
    ensures og == Compiled(products, nodeSet)
  {
    var nodes, edges := nodeSet, {};
    for pi := 0 to |products|
      invariant edges == CompiledEdges(products[..pi])
      invariant nodes == nodeSet + Endpoints(edges)
    {
      assert products[..pi + 1][..pi] == products[..pi];
      edges, nodes := LinkProduct(products[pi], nodeSet, edges, nodes);
    }
    assert products[..|products|] == products;
    og := SupplyGraph(nodes, edges);
  }
}
