/** The whole of `create_graph` (app.py:34-106): number the firms, assemble the
    products, prune and renumber the auxiliary graph, rebuild the products and
    compile the firm-only graph `OG`. */
module Generator {
  import opened Graphs
  import opened Results
  import opened Sampling
  import opened Firms
  import opened Assembly
  import opened Pruning
  import opened Renumbering
  import opened Layers

  /** The auxiliary graph after the pruning loop of app.py:73-75. */
  function PrunedAux(fpl: seq<int>, ps: seq<seq<int>>): Graph
  {
    Pruned(ProductGraph(fpl, ps), FirmCount(fpl) + |ps|)
  }

  /** The nodes surviving the pruning loop are in increasing order. */
  lemma PrunedAuxIncreasing(fpl: seq<int>, ps: seq<seq<int>>)
    ensures Increasing(PrunedAux(fpl, ps).nodes)
    ensures Distinct(PrunedAux(fpl, ps).nodes)
  {
    RangeIncreasing(0, FirmCount(fpl) + |ps|);
  }

  /** The `mapping` dict of app.py:78-82. */
  function Ids(fpl: seq<int>, ps: seq<seq<int>>): map<int, int>
  {
    Positions(PrunedAux(fpl, ps).nodes)
  }

  /** `G` once renumbered (app.py:83). */
  function Reduced(fpl: seq<int>, ps: seq<seq<int>>): Graph
  {
    PrunedAuxIncreasing(fpl, ps);
    Renumbered(PrunedAux(fpl, ps))
  }

  /** The pruned auxiliary graph `pr` for the accepted products `ps`: nodes in
      increasing order, the product nodes plus every firm some product chose,
      an edge from each firm of product `i` to node `n + i`, and the firms
      carrying the labels they were numbered with (product nodes have none). */
  ghost predicate AuxShaped(fpl: seq<int>, ps: seq<seq<int>>, pr: Graph)
  {
    var n := FirmCount(fpl);
    && Increasing(pr.nodes)
    && Distinct(pr.nodes)
    && (forall p, q :: (p, q) in pr.edges <==> n <= q < n + |ps| && p in ps[q - n])
    && (forall x :: x in pr.nodes <==> n <= x < n + |ps| || (0 <= x < n && Used(ps, x)))
    && (forall x :: x in pr.labels <==> x in pr.nodes && x < n)
    && (forall x :: x in pr.labels ==> pr.labels[x] == FirmLabels(fpl)[x])
  }

  lemma PrunedAuxEdges(fpl: seq<int>, ps: seq<seq<int>>)
    ensures var n := FirmCount(fpl);
      forall p, q :: (p, q) in PrunedAux(fpl, ps).edges <==> n <= q < n + |ps| && p in ps[q - n]
  {
    var n := FirmCount(fpl);
    assert PrunedAux(fpl, ps).edges == AuxEdges(n, ps);
    forall p, q ensures (p, q) in AuxEdges(n, ps) <==> n <= q < n + |ps| && p in ps[q - n] {
      AuxEdgesAt(n, ps, p, q);
    }
  }

  lemma PrunedAuxNodeSet(fpl: seq<int>, ps: seq<seq<int>>)
    requires ProductsOfFirms(fpl, ps)
    ensures var n := FirmCount(fpl);
      forall x :: x in PrunedAux(fpl, ps).nodes <==> n <= x < n + |ps| || (0 <= x < n && Used(ps, x))
  {
    var n := FirmCount(fpl);
    forall x ensures x in PrunedAux(fpl, ps).nodes <==> n <= x < n + |ps| || (0 <= x < n && Used(ps, x)) {
      PrunedAuxNodes(fpl, ps, x);
    }
  }

  lemma PrunedAuxLabels(fpl: seq<int>, ps: seq<seq<int>>)
    ensures var pr := PrunedAux(fpl, ps);
      && (forall x :: x in pr.labels <==> x in pr.nodes && x < FirmCount(fpl))
      && (forall x :: x in pr.labels ==> pr.labels[x] == FirmLabels(fpl)[x])
  {
    var n := FirmCount(fpl);
    var g := ProductGraph(fpl, ps);
    RangeIncreasing(0, n + |ps|);
    assert PrunedAux(fpl, ps).labels == KeptLabels(FirmLabels(fpl), g.edges, n + |ps|);
  }

  /** Pruning leaves the auxiliary graph in that shape. */
  lemma PrunedAuxShaped(fpl: seq<int>, ps: seq<seq<int>>)
    requires ProductsOfFirms(fpl, ps)
    ensures AuxShaped(fpl, ps, PrunedAux(fpl, ps))
  {
    PrunedAuxIncreasing(fpl, ps);
    PrunedAuxEdges(fpl, ps);
    PrunedAuxNodeSet(fpl, ps);
    PrunedAuxLabels(fpl, ps);
  }

  /** The nodes and edges of a graph in that shape are consistent, and every
      edge runs from a labelled firm to a later product node. */
  lemma ShapedWellFormed(fpl: seq<int>, ps: seq<seq<int>>, pr: Graph)
    requires ProductsOfFirms(fpl, ps)
    requires AuxShaped(fpl, ps, pr)
    ensures WellFormed(pr)
    ensures forall e :: e in pr.edges ==> e.0 < e.1 && e.0 in pr.labels && 0 <= pr.labels[e.0] < |fpl|
  {
    var n := FirmCount(fpl);
    forall e | e in pr.edges
      ensures e.0 in pr.nodes && e.1 in pr.nodes && e.0 < e.1 && e.0 in pr.labels && 0 <= pr.labels[e.0] < |fpl|
    {
      var p, q := e.0, e.1;
      assert (p, q) in pr.edges;
      assert n <= q < n + |ps| && p in ps[q - n];
      assert Used(ps, p);
    }
  }

  /** Every edge source of the renumbered graph is a firm with a label in
      `range(labels)`, as the lookup `product[G.nodes[firm]["label"]]` of
      app.py:92-93 needs. */
  lemma ReducedLabelled(fpl: seq<int>, ps: seq<seq<int>>)
    requires ProductsOfFirms(fpl, ps)
    ensures LabelledSources(Reduced(fpl, ps), |fpl|)
  {
    PrunedAuxShaped(fpl, ps);
    RenumberedRenames(PrunedAux(fpl, ps));
    RenamedLabelled(fpl, ps, PrunedAux(fpl, ps), Ids(fpl, ps), Reduced(fpl, ps));
  }

  /** Any renaming of a graph in the pruned shape has labelled edge sources. */
  lemma RenamedLabelled(fpl: seq<int>, ps: seq<seq<int>>, pr: Graph, m: map<int, int>, g: Graph)
    requires ProductsOfFirms(fpl, ps)
    requires AuxShaped(fpl, ps, pr)
    requires RenamedBy(pr, m, g)
    ensures LabelledSources(g, |fpl|)
  {
    forall e | e in g.edges ensures e.0 in g.labels && 0 <= g.labels[e.0] < |fpl| {
      var t, v := e.0, e.1;
      assert (t, v) in g.edges;
      var p, q :| (p, q) in pr.edges && p in m && q in m && m[p] == t && m[q] == v;
      assert p in pr.labels;
    }
  }

  /** The renumbered graph: nodes `0..n-1` and every edge with its source
      below its target (the comment of app.py:77). */
  lemma ReducedShape(fpl: seq<int>, ps: seq<seq<int>>)
    requires ProductsOfFirms(fpl, ps)
    ensures var g := Reduced(fpl, ps);
      && g.nodes == Range(0, |PrunedAux(fpl, ps).nodes|)
      && WellFormed(g)
      && (forall e :: e in g.edges ==> e.0 < e.1)
  {
    var pr := PrunedAux(fpl, ps);
    PrunedAuxShaped(fpl, ps);
    ShapedWellFormed(fpl, ps, pr);
    RenumberedNodes(pr);
    RenumberedForward(pr);
  }

  /** `g` is the graph `pr` renamed by a one-to-one map `m` defined on exactly
      its nodes, `pr` is in the shape pruning leaves, and `g` is consistent
      with labelled edge sources. */
  ghost predicate Reduction(fpl: seq<int>, ps: seq<seq<int>>, pr: Graph, m: map<int, int>, g: Graph)
  {
    && AuxShaped(fpl, ps, pr)
    && Injective(m)
    && (forall x :: x in m <==> x in pr.nodes)
    && RenamedBy(pr, m, g)
    && WellFormed(g)
    && LabelledSources(g, |fpl|)
  }

  /** Pruning and renumbering produce such a reduction. */
  lemma ReducedIsReduction(fpl: seq<int>, ps: seq<seq<int>>)
    requires ProductsOfFirms(fpl, ps)
    ensures Reduction(fpl, ps, PrunedAux(fpl, ps), Ids(fpl, ps), Reduced(fpl, ps))
  {
    PrunedAuxShaped(fpl, ps);
    RenumberedRenames(PrunedAux(fpl, ps));
    ReducedShape(fpl, ps);
    ReducedLabelled(fpl, ps);
  }

  /** An edge of the reduced graph comes from a product of `ps`: it joins the
      new id of a firm `z` chosen by product `i` to the new id of node `n + i`,
      and its source keeps the label `z` got when it was numbered. */
  lemma ReductionEdgeSource(fpl: seq<int>, ps: seq<seq<int>>, pr: Graph, m: map<int, int>, g: Graph, t: int, v: int)
    returns (i: int, z: int, node: int)
    requires ProductsOfFirms(fpl, ps)
    requires Reduction(fpl, ps, pr, m, g)
    requires (t, v) in g.edges
    ensures 0 <= i < |ps| && z in ps[i] && node == FirmCount(fpl) + i
    ensures z in m && m[z] == t && node in m && m[node] == v
    ensures t in g.labels && g.labels[t] == FirmLabels(fpl)[z]
  {
    var n := FirmCount(fpl);
    var p, q :| (p, q) in pr.edges && p in m && q in m && m[p] == t && m[q] == v;
    i, z, node := q - n, p, q;
    assert Used(ps, z);
    assert z in pr.labels;
  }

  /** Conversely, every firm `z` chosen by product `i` survives, and the
      reduced graph joins its new id to the new id of node `n + i`. */
  lemma ReductionEdge(fpl: seq<int>, ps: seq<seq<int>>, pr: Graph, m: map<int, int>, g: Graph, i: int, z: int)
    requires ProductsOfFirms(fpl, ps)
    requires Reduction(fpl, ps, pr, m, g)
    requires 0 <= i < |ps| && z in ps[i]
    ensures z in m && FirmCount(fpl) + i in m
    ensures (m[z], m[FirmCount(fpl) + i]) in g.edges
    ensures m[z] in g.labels && g.labels[m[z]] == FirmLabels(fpl)[z]
  {
    var node := FirmCount(fpl) + i;
    assert Used(ps, z);
    assert z in pr.nodes && node in pr.nodes;
    assert (z, node) in pr.edges;
    assert z in pr.labels;
  }

  /** `OG` compiled from the renumbered graph `g` (app.py:85-105). */
  function OutputFrom(fpl: seq<int>, g: Graph): SupplyGraph
    requires LabelledSources(g, |fpl|)
  {
    Compiled(Rebuilt(g, |fpl|), NodeSet(g))
  }

  /** `create_graph`'s output graph for the accepted products `ps`. */
  function Output(fpl: seq<int>, ps: seq<seq<int>>): SupplyGraph
    requires ProductsOfFirms(fpl, ps)
  {
    ReducedLabelled(fpl, ps);
    OutputFrom(fpl, Reduced(fpl, ps))
  }

  /** Firms `x` and `y` of product `i` sit on neighbouring labels of that
      product: `x`'s label is below `y`'s and none of its firms has a label
      strictly in between. */
  ghost predicate Neighbours(fpl: seq<int>, ps: seq<seq<int>>, i: int, x: int, y: int)
    requires ProductsOfFirms(fpl, ps)
  {
    && 0 <= i < |ps| && x in ps[i] && y in ps[i]
    && FirmLabels(fpl)[x] < FirmLabels(fpl)[y]
    && forall z :: z in ps[i] ==> !(FirmLabels(fpl)[x] < FirmLabels(fpl)[z] < FirmLabels(fpl)[y])
  }

  /** Two firms adjacent among the predecessors of node `v` of a reduction are
      the new ids of neighbouring firms of one product. */
  lemma ReductionAdjacentSound(fpl: seq<int>, ps: seq<seq<int>>, pr: Graph, m: map<int, int>, g: Graph,
                               v: int, u: int, w: int)
    returns (i: int, x: int, y: int)
    requires ProductsOfFirms(fpl, ps)
    requires Reduction(fpl, ps, pr, m, g)
    requires v in g.nodes && Adjacent(PredecessorsOf(g, v), g.labels, u, w)
    ensures x in m && m[x] == u && y in m && m[y] == w
    ensures Neighbours(fpl, ps, i, x, y)
  {
    var preds := PredecessorsOf(g, v);
    assert (u, v) in g.edges && (w, v) in g.edges;
    var j, node1, node2;
    i, x, node1 := ReductionEdgeSource(fpl, ps, pr, m, g, u, v);
    j, y, node2 := ReductionEdgeSource(fpl, ps, pr, m, g, w, v);
    forall z | z in ps[i] ensures !(FirmLabels(fpl)[x] < FirmLabels(fpl)[z] < FirmLabels(fpl)[y]) {
      ReductionEdge(fpl, ps, pr, m, g, i, z);
      assert m[z] in preds;
    }
  }

  /** Conversely, the new ids of neighbouring firms of product `i` are
      adjacent among the predecessors of the new id of node `n + i`. */
  lemma ReductionAdjacentComplete(fpl: seq<int>, ps: seq<seq<int>>, pr: Graph, m: map<int, int>, g: Graph,
                                  i: int, x: int, y: int)
    returns (v: int)
    requires ProductsOfFirms(fpl, ps)
    requires Reduction(fpl, ps, pr, m, g)
    requires Neighbours(fpl, ps, i, x, y)
    ensures x in m && y in m
    ensures v in g.nodes && Adjacent(PredecessorsOf(g, v), g.labels, m[x], m[y])
  {
    var n := FirmCount(fpl);
    ReductionEdge(fpl, ps, pr, m, g, i, x);
    ReductionEdge(fpl, ps, pr, m, g, i, y);
    v := m[n + i];
    var preds := PredecessorsOf(g, v);
    assert m[x] in preds && m[y] in preds;
    forall t | t in preds && t in g.labels ensures !(g.labels[m[x]] < g.labels[t] < g.labels[m[y]]) {
      assert (t, v) in g.edges;
      var j, z, node := ReductionEdgeSource(fpl, ps, pr, m, g, t, v);
      assert node == n + i;
    }
  }

  lemma ReductionOutputNode(fpl: seq<int>, ps: seq<seq<int>>, pr: Graph, m: map<int, int>, g: Graph, u: int)
    returns (x: int)
    requires ProductsOfFirms(fpl, ps)
    requires Reduction(fpl, ps, pr, m, g)
    requires u in OutputFrom(fpl, g).nodes
    ensures Used(ps, x) && x in m && m[x] == u
  {
    OutputNodes(g, |fpl|);
    var v :| v in g.nodes && u in g.nodes && (u, v) in g.edges;
    var i, node;
    i, x, node := ReductionEdgeSource(fpl, ps, pr, m, g, u, v);
  }

  lemma ReductionOutputNodeFrom(fpl: seq<int>, ps: seq<seq<int>>, pr: Graph, m: map<int, int>, g: Graph, x: int)
    requires ProductsOfFirms(fpl, ps)
    requires Reduction(fpl, ps, pr, m, g)
    requires Used(ps, x)
    ensures x in m && m[x] in OutputFrom(fpl, g).nodes
  {
    var i :| 0 <= i < |ps| && x in ps[i];
    ReductionEdge(fpl, ps, pr, m, g, i, x);
    var v := m[FirmCount(fpl) + i];
    assert (m[x], v) in g.edges;
    OutputNodes(g, |fpl|);
  }

  /** Every output edge comes from one accepted product: it joins (the new ids
      of) two of its firms whose labels are neighbours among the labels that
      product uses. */
  lemma OutputEdgeSound(fpl: seq<int>, ps: seq<seq<int>>, u: int, w: int) returns (i: int, x: int, y: int)
    requires ProductsOfFirms(fpl, ps)
    requires (u, w) in Output(fpl, ps).edges
    ensures x in Ids(fpl, ps) && Ids(fpl, ps)[x] == u
    ensures y in Ids(fpl, ps) && Ids(fpl, ps)[y] == w
    ensures Neighbours(fpl, ps, i, x, y)
  {
    var g := Reduced(fpl, ps);
    ReducedIsReduction(fpl, ps);
    var v := OutputEdgeSource(g, |fpl|, u, w);
    i, x, y := ReductionAdjacentSound(fpl, ps, PrunedAux(fpl, ps), Ids(fpl, ps), g, v, u, w);
  }

  /** Conversely, two firms of one accepted product whose labels are
      neighbours among that product's labels are joined in the output. */
  lemma OutputEdgeComplete(fpl: seq<int>, ps: seq<seq<int>>, i: int, x: int, y: int)
    requires ProductsOfFirms(fpl, ps)
    requires Neighbours(fpl, ps, i, x, y)
    ensures x in Ids(fpl, ps) && y in Ids(fpl, ps)
    ensures (Ids(fpl, ps)[x], Ids(fpl, ps)[y]) in Output(fpl, ps).edges
  {
    var g := Reduced(fpl, ps);
    ReducedIsReduction(fpl, ps);
    var v := ReductionAdjacentComplete(fpl, ps, PrunedAux(fpl, ps), Ids(fpl, ps), g, i, x, y);
    OutputEdgeMade(g, |fpl|, v, Ids(fpl, ps)[x], Ids(fpl, ps)[y]);
  }

  /** The output nodes are exactly the new ids of the firms some accepted
      product chose: a firm no product chose is pruned, and every chosen firm
      lands in `node_set`. */
  lemma OutputNodesAreUsedFirms(fpl: seq<int>, ps: seq<seq<int>>, u: int)
    requires ProductsOfFirms(fpl, ps)
    ensures u in Output(fpl, ps).nodes <==> exists x :: Used(ps, x) && x in Ids(fpl, ps) && Ids(fpl, ps)[x] == u
  {
    var pr, m, g := PrunedAux(fpl, ps), Ids(fpl, ps), Reduced(fpl, ps);
    ReducedIsReduction(fpl, ps);
    if u in Output(fpl, ps).nodes {
      var x := ReductionOutputNode(fpl, ps, pr, m, g, u);
    }
    if exists x :: Used(ps, x) && x in m && m[x] == u {
      var x :| Used(ps, x) && x in m && m[x] == u;
      ReductionOutputNodeFrom(fpl, ps, pr, m, g, x);
    }
  }

  /** Every output edge goes from a smaller id to a larger one, and both its
      ends are output nodes. */
  lemma OutputEdgesForward(fpl: seq<int>, ps: seq<seq<int>>, u: int, w: int)
    requires ProductsOfFirms(fpl, ps)
    requires (u, w) in Output(fpl, ps).edges
    ensures u < w
    ensures u in Output(fpl, ps).nodes && w in Output(fpl, ps).nodes
  {
    var i, x, y := OutputEdgeSound(fpl, ps, u, w);
    assert FirmLabels(fpl)[x] < FirmLabels(fpl)[y];
    if y <= x {
      LabelsNondecreasing(fpl, y, x);
    }
    PrunedAuxIncreasing(fpl, ps);
    PositionsMonotone(PrunedAux(fpl, ps).nodes, x, y);
  }

  /** When every accepted product draws all its firms from one label, `OG`
      has no edges at all, yet every chosen firm is one of its nodes: the
      output can consist of isolated nodes. */
  lemma OneLabelProductsGiveIsolatedFirms(fpl: seq<int>, ps: seq<seq<int>>)
    requires ProductsOfFirms(fpl, ps)
    requires forall i, x, y :: 0 <= i < |ps| && x in ps[i] && y in ps[i] ==> FirmLabels(fpl)[x] == FirmLabels(fpl)[y]
    ensures Output(fpl, ps).edges == {}
    ensures |ps| > 0 ==> Output(fpl, ps).nodes != {}
  {
    if e :| e in Output(fpl, ps).edges {
      var i, x, y := OutputEdgeSound(fpl, ps, e.0, e.1);
      assert false;
    }
    if |ps| > 0 {
      var x := ps[0][0];
      assert Used(ps, x);
      ReducedIsReduction(fpl, ps);
      ReductionOutputNodeFrom(fpl, ps, PrunedAux(fpl, ps), Ids(fpl, ps), Reduced(fpl, ps), x);
    }
  }

  /** The accepted products are nonempty lists of numbered firms. */
  lemma AcceptedAreProducts(fpl: seq<int>, cap: seq<int>, ch: Chance, a: nat)
    requires Accepted(fpl, cap, ch, a).Ok?
    ensures ProductsOfFirms(fpl, Accepted(fpl, cap, ch, a).value)
  {
    var ps := Accepted(fpl, cap, ch, a).value;
    forall i | 0 <= i < |ps| ensures |ps[i]| > 0 && forall f :: f in ps[i] ==> 0 <= f < FirmCount(fpl) {
      AcceptedProductsAreFirms(fpl, cap, ch, a, i);
    }
  }

  /** `create_graph(graph_num, firms_per_label, number_products,
      connect_vector, radius, seed)`: the exception the attempt loop raises,
      or `OG`. The seeded stream and the radius are `ch`. */
  function Generate(fpl: seq<int>, numberProducts: int, cap: seq<int>, ch: Chance): Result<SupplyGraph>
  {
    match Accepted(fpl, cap, ch, Count(numberProducts))
    case Err(e) => Err(e)
    case Ok(ps) =>
      AcceptedAreProducts(fpl, cap, ch, Count(numberProducts));
      Ok(Output(fpl, ps))
  }

  /** `create_graph` raises exactly when some attempt meets a label whose
      in-range firms are nonempty while its `connect_vector` entry is missing
      or negative. */
  lemma GenerateRaises(fpl: seq<int>, numberProducts: int, cap: seq<int>, ch: Chance)
    ensures Generate(fpl, numberProducts, cap, ch).Ok?
        <==> forall b :: 0 <= b < Count(numberProducts) ==> !AttemptRaises(fpl, cap, ch, b)
  {
    AcceptedRaises(fpl, cap, ch, Count(numberProducts));
  }

  /** With a non-negative `connect_vector` entry for every label the run never
      raises, whatever the stream. */
  lemma GenerateSucceeds(fpl: seq<int>, numberProducts: int, cap: seq<int>, ch: Chance)
    requires |cap| >= |fpl|
    requires forall j :: 0 <= j < |fpl| ==> cap[j] >= 0
    ensures Generate(fpl, numberProducts, cap, ch).Ok?
  {
    CapacitiesNeverRaise(fpl, cap, ch, Count(numberProducts));
  }

  /** Every edge of a generated `OG` joins two of its nodes and runs from a
      smaller id to a larger one, so `OG` is acyclic. */
  lemma GenerateEdgesForward(fpl: seq<int>, numberProducts: int, cap: seq<int>, ch: Chance, u: int, w: int)
    requires Generate(fpl, numberProducts, cap, ch).Ok?
    requires (u, w) in Generate(fpl, numberProducts, cap, ch).value.edges
    ensures u < w
    ensures u in Generate(fpl, numberProducts, cap, ch).value.nodes
    ensures w in Generate(fpl, numberProducts, cap, ch).value.nodes
  {
    var a := Count(numberProducts);
    AcceptedAreProducts(fpl, cap, ch, a);
    OutputEdgesForward(fpl, Accepted(fpl, cap, ch, a).value, u, w);
  }

  /** Lines 72-106 of `create_graph`: prune the auxiliary graph, renumber it,
      rebuild the products and compile the layered output graph. */
  method ReduceProducts(g: DiGraph, fpl: seq<int>, ps: seq<seq<int>>, node: int) returns (og: SupplyGraph)
    requires ProductsOfFirms(fpl, ps)
    requires g.Value() == ProductGraph(fpl, ps)
    requires node == FirmCount(fpl) + |ps|
    modifies g
    ensures og == Output(fpl, ps)
  {
    RangeIncreasing(0, node);
    forall e | e in g.edges ensures e.0 in g.nodes && e.1 in g.nodes {
      AuxEdgesUp(fpl, ps, e.0, e.1);
    }
    PruneIsolated(g, node);
    assert g.Value() == PrunedAux(fpl, ps);
    PrunedAuxIncreasing(fpl, ps);
    var h := RenumberGraph(g);
    assert h.Value() == Reduced(fpl, ps);
    ReducedLabelled(fpl, ps);
    var products, nodeSet := RebuildProducts(h, |fpl|);
    og := CompileLayers(products, nodeSet);
  }

  /** `create_graph` on the graph classes: build the auxiliary graph, prune,
      renumber, rebuild the products and compile `OG`. */
  method CreateGraph(fpl: seq<int>, numberProducts: int, cap: seq<int>, ch: Chance) returns (r: Result<SupplyGraph>)
    ensures r == Generate(fpl, numberProducts, cap, ch)
  {
    var g := new DiGraph();
    var labelNodes, node0 := NumberFirms(g, fpl);
    var accepted, node := AssembleProducts(g, fpl, cap, ch, labelNodes, numberProducts, node0);
    if accepted.Err? {
      return Err(accepted.error);
    }
    var ps := accepted.value;
    AcceptedAreProducts(fpl, cap, ch, Count(numberProducts));
    var og := ReduceProducts(g, fpl, ps, node);
    r := Ok(og);
  }
}
