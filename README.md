# scn supply-chain network generator, modelled in Dafny

This project models the graph generator of the scn web application
(`app.py`). It builds synthetic supply-chain networks: **firms** are split
into ordered tiers called **labels**, and **products** tie firms of several
labels together.

`create_graph` (app.py:19-121) works in five steps:

1. It numbers the firms label by label.
2. It runs `number_products` attempts. Each attempt draws a product position. For every label it samples up to `connect_vector[label]` of the firms lying within `radius` of that position. The candidate is accepted when it has more than one firm and is not already in `product_list`.
3. It builds the auxiliary graph (firm → product), deletes the isolated nodes and renumbers the survivors `0..n-1`.
4. It reads the products back from the predecessors of each product node.
5. It builds the firm-only output graph `OG`. Within one product, it joins every firm of an active label to every firm of the next active label.

`create_multiple_graphs` (app.py:126-160) computes the parameters shared by
all graphs of a batch:

- `firms_per_label` is `round(F/L)` repeated `L` times;
- `connect_vector` defaults to all ones.

It then draws one seed per graph and runs `create_graph` once per seed, in
order.

## Structure

Each stage of the generator is its own module. The graph is the class
`Graphs.DiGraph`, whose methods `AddNode`, `SetLabel`, `AddEdge` and
`RemoveNode` change it in place. Each imperative stage (`Firms.NumberFirms`,
`Assembly.AssembleProducts`, `Pruning.PruneIsolated`, `Layers.RebuildProducts`
and the others) is a module-level method that takes a `DiGraph`. Each is
proved equal to a specification function, and the properties are proved about
those functions.

| module | file | contents |
|---|---|---|
| `Results` | results.dfy | `Error` (the three exceptions the code can raise), `Result`, `Option` |
| `Graphs` | graphs.dfy | the networkx `DiGraph` as a class (insertion-ordered node list, `"label"` attributes, edge set) and its value `Graph` |
| `Sampling` | sampling.dfy | `Chance`, the random stream one graph sees; `rnd.sample` as CPython's pool algorithm |
| `Firms` | firms.dfy | firm numbering, lines 41-50 |
| `Assembly` | assembly.dfy | product attempts and acceptance, lines 55-70 |
| `Pruning` | pruning.dfy | isolated-node removal, lines 72-75 |
| `Renumbering` | renumbering.dfy | relabelling to `0..n-1`, lines 77-83 |
| `Layers` | layers.dfy | product reconstruction and the layered output graph, lines 85-105 |
| `Generator` | generator.dfy | `create_graph` end to end and its properties |
| `Batch` | batch.dfy | `create_multiple_graphs` |

### Randomness and geometry

Randomness and geometry are inputs.

- `Chance.near(a, f)` says whether firm `f` lies strictly within `radius` of the product drawn on attempt `a`. It stands for the firm positions, the product position, `measure_node_distance` and the `< radius` test.
- `Chance.below(a, k, t)` is the raw value behind the `t`-th index draw that `rnd.sample` makes for label `k` on attempt `a`.
- In a batch, `BatchChance.draw` gives the values behind `rnd.randint(1, 100000)`, and `BatchChance.stream(s)` is the stream that `create_graph` sees after `rnd.seed(s)`.

### Errors

Every exception the code can raise is a `Result` error, never a
precondition:

- **`CapacityMissing(k)`**: `connect_vector[k]` is out of range. This happens only when label `k` has in-range firms.
- **`NegativeSampleSize(k)`**: `rnd.sample` is given a negative count.
- **`DivisionByZero`**: `number_labels == 0`.

### Behaviour of the code worth knowing

- **Duplicate rejection compares lists.** The test `new_product in product_list` (app.py:65) compares Python lists, so it is sensitive to order: the same firms in another sample order count as a new product. `Assembly.Admit` compares sequences. `Assembly.AcceptedFacts` proves that no two accepted entries are equal as sequences, and `Assembly.AcceptedComplete` proves that every candidate with more than one firm ends up in `product_list`.
- **Output nodes can be isolated.** A product whose firms all carry one label adds its firms to `node_set` (app.py:95, 99) but no edge (app.py:102). `Generator.OneLabelProductsGiveIsolatedFirms` proves that such output graphs have nodes and no edges.
- **Consecutive active labels are joined.** Within a product the code joins consecutive *active* labels, the labels the product has firms on, which may be several labels apart (app.py:101-102). `Layers.ProductLinksAt` states this rule.
- **Renumbering keeps edges pointing up.** After relabelling, every edge goes from a smaller id to a larger one. This follows from the increasing node order that pruning keeps, and is proved by `Renumbering.RenumberedForward`, `Generator.OutputEdgesForward` and `Generator.GenerateEdgesForward`.

## Model

| member | source | states |
|---|---|---|
| Graphs.DiGraph.constructor | app.py:38 | `nx.DiGraph()` starts with no nodes, no labels and no edges |
| Graphs.DiGraph.AddNode | app.py:45 | `add_node` appends a new node at the end of the node order; an existing node, the labels and the edges are left unchanged |
| Graphs.DiGraph.SetLabel | app.py:46 | setting `"label"` changes only that node's attribute |
| Graphs.DiGraph.AddEdge | app.py:69 | `add_edge` adds the edge and appends any endpoint not yet present, source first |
| Graphs.DiGraph.RemoveNode | app.py:75 | `remove_node` drops the node from the order, drops its attribute and drops every incident edge |
| Graphs.Sources | app.py:89-91 | `predecessors(v)`: exactly the nodes with an edge into `v`, in node order, so increasing when the nodes are |
| Graphs.Targets | app.py:74 | `successors(u)`: exactly the nodes with an edge out of `u` |
| Graphs.Without | app.py:75 | the node list after a removal holds exactly the other nodes |
| Graphs.RelabelledLabelAt | app.py:83 | `relabel_nodes` with a one-to-one mapping moves each node's label to its new id |
| Graphs.RelabelledEdgeSource | app.py:83 | every relabelled edge is the image of an original edge |
| Graphs.RelabelNodes | app.py:83 | `relabel_nodes` returns a fresh graph renamed through the mapping |
| Firms.LabelSeq | app.py:41-50 | the label of each id numbered so far is below the current label |
| Firms.FirmLabels | app.py:46 | exactly the ids `0..total-1` carry a label, and each label is in `range(labels)` |
| Firms.StartMonotone | app.py:41-50 | the first id of a label never decreases as labels go up |
| Firms.BlocksOrdered | app.py:41-50 | the ids of an earlier label end before a later label starts |
| Firms.BlockWithin | app.py:41-50 | every label's ids lie below the total firm count |
| Firms.LabelSeqInBlock | app.py:41-50 | the label of id `n` is the label whose block contains `n` |
| Firms.FirmLabelsMatchBlocks | app.py:41-50 | firm `n` has label `k` exactly when `n` is in the contiguous block `label_nodes[k]` |
| Firms.LabelsNondecreasing | app.py:42-49 | ids are given in label-major order: a larger id never has a smaller label |
| Firms.RangeIncreasing | app.py:41-49 | the ids handed out are `lo..hi-1`, in increasing order |
| Firms.AddLabelFirms | app.py:43-50 | one pass of the outer loop adds the block of label `k`, labels each firm `k`, and returns that block as `sup` |
| Firms.NumberFirms | app.py:41-50 | after the loops the graph holds ids `0..total-1` with their labels, `label_nodes` lists the blocks, and `node` is the firm total |
| Sampling.Sample | app.py:63 | `rnd.sample(pool, m)` returns `m` members of the pool, distinct when the pool is |
| Assembly.NearFirms | app.py:60-61 | `nodes_in_range` holds exactly the firms of the label's block within radius, increasing as the block is |
| Assembly.NearsUpToAt | app.py:59-61 | the in-range list of label `i` is the one the label loop computes for `i` |
| Assembly.NearsFacts | app.py:59-61 | each label's in-range list holds distinct firms of that label's block, all within radius |
| Assembly.SelectionSpec | app.py:62-63 | a label's selection raises exactly when its in-range list is nonempty and its capacity is missing or negative, with that exception; otherwise it holds `min(len(nodes_in_range), connect_vector[k])` distinct in-range firms, and none when nothing is in range |
| Assembly.Within | app.py:64 | the firms of a product with ids in a range, in product order |
| Assembly.WithinConcat | app.py:64 | splitting `new_product += chosen_nodes` by label distributes over concatenation |
| Assembly.SelectionInBlock | app.py:60-63 | a label's selection holds distinct firms of that label's block, all within radius |
| Assembly.CollectErrorStays | app.py:59-64 | once a label raises, the attempt's outcome is that exception |
| Assembly.CollectFirms | app.py:59-64 | the labels visited so far contribute distinct in-range firms with ids below the next label's block |
| Assembly.CollectPerLabel | app.py:59-64 | the firms of label `j` in `new_product` are exactly that label's selection |
| Assembly.CandidateFirms | app.py:57-64 | a candidate product is a list of distinct firms, all within radius |
| Assembly.CandidatePerLabel | app.py:60-64 | a candidate holds `min(len(nodes_in_range), connect_vector[j])` firms of label `j` (none when nothing is in range), never more than the capacity |
| Assembly.CollectRaises | app.py:59-64 | the label loop succeeds exactly when no label raises; otherwise the exception is that of the first label that raises |
| Assembly.CandidateRaises | app.py:59-64 | an attempt yields a candidate exactly when none of its labels raises |
| Assembly.AdmitKeeps | app.py:65-66 | one acceptance test keeps `product_list` free of repeats and of single-firm entries, adds at most the candidate, and adds it whenever it has more than one firm |
| Assembly.AdmitAdds | app.py:65-66 | a candidate with more than one firm is in `product_list` after its acceptance test, whether newly appended or already listed |
| Assembly.AcceptedFacts | app.py:55-66 | `product_list` never holds two equal lists, every entry has at least two firms, and each is the candidate of an earlier attempt |
| Assembly.AcceptedComplete | app.py:55-66 | conversely, when the run succeeds every attempt yields a candidate, and every candidate with more than one firm is in `product_list` |
| Assembly.AcceptedProductsAreFirms | app.py:55-66 | every accepted product lists at least two distinct firm ids, and has at most `connect_vector[j]` firms of each label `j` |
| Assembly.AcceptedErrorStays | app.py:56-63 | once an attempt raises, the run's outcome is that exception |
| Assembly.AcceptedStep | app.py:56-65 | the run survives one more attempt exactly when it survived so far and the attempt yields a candidate |
| Assembly.AcceptedOk | app.py:56-65 | the run survives `a` attempts exactly when every one of them yields a candidate |
| Assembly.AcceptedRaises | app.py:56-64 | the run survives `a` attempts exactly when no label of any attempt raises |
| Assembly.CapacitiesNeverRaise | app.py:62-63 | a `connect_vector` with a non-negative entry per label never raises, whatever the stream |
| Assembly.AuxEdgesAt | app.py:67-69 | auxiliary edge `(u, v)` exists exactly when `v` is the node of accepted product `v - n` and `u` one of its firms |
| Assembly.PickLabel | app.py:59-64 | one pass of the label loop extends `new_product` by the label's selection |
| Assembly.PickFirms | app.py:57-64 | the label loop builds the attempt's candidate, or raises |
| Assembly.AddEdges | app.py:68-69 | the edge loop adds one edge from each chosen firm to the product node and nothing else |
| Assembly.AddProduct | app.py:67-70 | accepting a product adds node `n + |ps|` and its edges, giving the auxiliary graph of the longer list |
| Assembly.AssembleProducts | app.py:55-70 | the attempt loop yields the accepted products (or the first exception) and the auxiliary graph of those products, and `node` is the next free id |
| Pruning.KeepLinked | app.py:73-75 | after the pass over `range(count)` a node stays exactly when it is outside the range or touches an edge, in the same order |
| Pruning.KeptLabels | app.py:73-75 | a removed node loses its label and every other label is unchanged |
| Pruning.IsolatedIffUnlinked | app.py:74 | a node has no successors and no predecessors exactly when no edge touches it |
| Pruning.KeepStep | app.py:73-75 | iteration `n` removes node `n` exactly when it is unlinked |
| Pruning.KeptLabelsStep | app.py:73-75 | iteration `n` drops the label of node `n` exactly when the node is unlinked |
| Pruning.PruneTest | app.py:74 | at iteration `n` the node is still present, and the test finds it isolated exactly when no edge touches it |
| Pruning.UnlinkedEdges | app.py:75 | removing an unlinked node leaves the edges unchanged |
| Pruning.KeepNone | app.py:73 | before the loop starts no node is removed |
| Pruning.PruneIsolated | app.py:72-75 | the pruning loop leaves the pruned graph; edges are untouched |
| Pruning.PrunedAuxNodes | app.py:72-75 | every product node survives pruning, and a firm survives exactly when some accepted product chose it |
| Pruning.AuxEdgesUp | app.py:67-70 | every auxiliary edge runs from a firm to a later product node, so source < target |
| Renumbering.Positions | app.py:78-82 | `mapping` is defined on exactly the nodes, with values below their count |
| Renumbering.PositionsAt | app.py:80-82 | with no repeated node, the node at index `i` is mapped to `i` |
| Renumbering.PositionsBijective | app.py:78-82 | `mapping` is a bijection from the nodes onto `0..n-1` |
| Renumbering.PositionsMonotone | app.py:77-82 | on increasing nodes, `mapping` is strictly monotone |
| Renumbering.RenumberedNodes | app.py:77-83 | after relabelling the nodes are `0..n-1` in order, and every edge joins two nodes |
| Renumbering.RenumberedLabels | app.py:83 | the node at each index keeps its label |
| Renumbering.RenumberedForward | app.py:77 | if the nodes were increasing and every edge went up, every relabelled edge goes up (`i -> j` implies `i < j`) |
| Renumbering.RenumberedRenames | app.py:83 | the new graph is the old one renamed by a one-to-one map defined on exactly its nodes |
| Renumbering.NumberNodes | app.py:78-82 | the loop builds `mapping` as node → position |
| Renumbering.RenumberGraph | app.py:78-83 | `G` becomes the renumbered graph |
| Layers.Group | app.py:90-93 | the `product` dict has one list per label, and a firm is in list `k` exactly when it is a predecessor with label `k` |
| Layers.ActiveLabels | app.py:101 | `active_labels` holds exactly the labels with firms, in increasing order |
| Layers.Cross | app.py:103-105 | the two inner loops add exactly the pairs (lower firm, upper firm) |
| Layers.CompiledEdges | app.py:100-105 | the edges of `OG` are exactly the links of one product or another, repeats collapsing |
| Layers.Producers | app.py:88-89 | the nodes reached by `if len(predecessors) > 0`: exactly those with predecessors, in order |
| Layers.RebuiltFrom | app.py:86-95 | the rebuilt `product_list` has one entry per node with predecessors, each being the grouping of that node's predecessors |
| Layers.NodeSetFrom | app.py:87-95 | `node_set` holds exactly the predecessors of the visited nodes |
| Layers.Endpoints | app.py:99-105 | `add_edge` adds exactly the endpoints of the edges as nodes |
| Layers.LinksComplete | app.py:102-105 | every pair of firms on consecutive entries of `active_labels` is linked |
| Layers.LinksSound | app.py:102-105 | every link joins firms on consecutive entries of `active_labels` |
| Layers.ActiveStepConsecutive | app.py:101-102 | neighbouring entries of `active_labels` are consecutive non-empty labels |
| Layers.ConsecutiveActiveStep | app.py:101-102 | consecutive non-empty labels are neighbouring entries of `active_labels` |
| Layers.ProductLinksSound | app.py:101-105 | every link of a product joins a firm of one non-empty label to a firm of the next non-empty label |
| Layers.ProductLinksComplete | app.py:101-105 | every pair of firms on consecutive non-empty labels of a product is linked |
| Layers.PredecessorsLabelled | app.py:91-93 | the predecessors of a node all have labels in `range(labels)` |
| Layers.GroupLinksSound | app.py:90-105 | a link in a node's product joins two predecessors on neighbouring labels |
| Layers.GroupLinksComplete | app.py:90-105 | two predecessors on neighbouring labels are linked in the node's product |
| Layers.OutputEdgeSource | app.py:86-105 | every output edge joins two neighbouring-label predecessors of some node |
| Layers.OutputEdgeMade | app.py:86-105 | two neighbouring-label predecessors of a node become an output edge |
| Layers.ProductLinksAt | app.py:101-105 | a product links `u -> v` exactly when `u` and `v` lie on consecutive non-empty labels, possibly several apart |
| Layers.SingleLayerNoLinks | app.py:101-102 | a product with at most one active label adds no edge |
| Layers.GroupEmpty | app.py:90-93 | a label none of the predecessors carries gets an empty list |
| Layers.GroupLinksAt | app.py:90-105 | in the product of node `v`, `u -> w` is linked exactly when `u` and `w` are predecessors of `v` on neighbouring labels: `u`'s is lower and none of `v`'s predecessors has a label in between |
| Layers.OutputEdgesAt | app.py:86-105 | `(u, w)` is an output edge exactly when `u` and `w` are neighbouring-label predecessors of one node |
| Layers.OutputEdgesClimb | app.py:100-105 | every output edge goes from a lower label to a higher one, so there are no self-loops |
| Layers.OutputNodes | app.py:95-99 | the output nodes are exactly the nodes with an edge into some node |
| Layers.OneLabelNotAdjacent | app.py:101-102 | when every product's firms share one label, no two of them are neighbours |
| Layers.OneLabelProductsGiveNoEdges | app.py:95-105 | when every product's firms share one label, `OG` has the firms as nodes and no edge |
| Layers.GroupByLabel | app.py:90-93 | the inner loop builds the `product` dict of one node |
| Layers.RebuildProducts | app.py:85-95 | the loop builds the rebuilt `product_list` and `node_set` |
| Layers.JoinLayers | app.py:103-105 | the two inner loops add every pair from one active label to the next, plus their endpoints as nodes |
| Layers.LinkProduct | app.py:101-105 | the loop over `active_labels` adds the product's links |
| Layers.CompileLayers | app.py:97-105 | `OG` is `node_set` plus the links of every product |
| Generator.PrunedAuxIncreasing | app.py:72-75 | after pruning the nodes are still increasing and distinct |
| Generator.PrunedAuxEdges | app.py:67-75 | the pruned graph's edges are the auxiliary edges, firm to product |
| Generator.PrunedAuxNodeSet | app.py:72-75 | the pruned nodes are the product nodes and the chosen firms |
| Generator.PrunedAuxLabels | app.py:46-75 | exactly the surviving firms keep a label, and it is their original one |
| Generator.ShapedWellFormed | app.py:67-75 | every pruned edge joins two nodes, goes up and starts at a labelled firm |
| Generator.ReducedLabelled | app.py:92-93 | after renumbering every edge source has a label in `range(labels)`, so `product[G.nodes[firm]["label"]]` never fails |
| Generator.RenamedLabelled | app.py:83-93 | any one-to-one renaming of the pruned graph keeps edge sources labelled |
| Generator.ReducedShape | app.py:77-83 | the renumbered graph has nodes `0..n-1`, every edge joins two nodes, and every edge goes up |
| Generator.ReducedIsReduction | app.py:72-83 | pruning and renumbering rename the pruned graph one-to-one |
| Generator.ReductionEdgeSource | app.py:67-83 | each edge of the renumbered graph is the renamed edge from a chosen firm to its product node |
| Generator.ReductionEdge | app.py:67-83 | each firm of each accepted product has its renamed edge to the renamed product node |
| Generator.ReductionAdjacentSound | app.py:86-105 | in any one-to-one renaming of the pruned graph, neighbouring-label predecessors of a node are the renamed neighbouring firms of one accepted product |
| Generator.ReductionAdjacentComplete | app.py:86-105 | in any such renaming, neighbouring firms of an accepted product are neighbouring-label predecessors of its renamed node |
| Generator.ReductionOutputNode | app.py:95-99 | in any such renaming, every output node is a renamed firm that some product chose |
| Generator.ReductionOutputNodeFrom | app.py:95-99 | in any such renaming, every firm some product chose becomes an output node |
| Generator.OutputEdgeSound | app.py:86-105 | every output edge is the renaming of two firms `x`, `y` of one accepted product, `y` on the next label of that product above `x`'s |
| Generator.OutputEdgeComplete | app.py:86-105 | every such pair of an accepted product becomes an output edge |
| Generator.OutputNodesAreUsedFirms | app.py:86-99 | the output nodes are exactly the renamed firms chosen by some accepted product |
| Generator.OutputEdgesForward | app.py:77-105 | every output edge goes from a smaller id to a larger one, between output nodes |
| Generator.OneLabelProductsGiveIsolatedFirms | app.py:95-105 | when each accepted product's firms share one label, `OG` has no edges but still has nodes |
| Generator.AcceptedAreProducts | app.py:55-70 | the accepted products are nonempty lists of firm ids |
| Generator.GenerateRaises | app.py:34-106 | `create_graph` returns exactly when no label of any attempt raises |
| Generator.GenerateSucceeds | app.py:62-63 | with a non-negative capacity for every label `create_graph` never raises |
| Generator.GenerateEdgesForward | app.py:97-105 | every edge of a returned graph goes from a smaller id to a larger one, between its nodes |
| Generator.ReduceProducts | app.py:72-106 | pruning, renumbering, rebuilding and compiling turn the auxiliary graph into the output graph of the accepted products |
| Generator.CreateGraph | app.py:34-106 | `create_graph` returns the output graph of the accepted products, or the first exception |
| Batch.RoundHalfEven | app.py:142 | `round(f / l)`: the integer nearest to the exact quotient `f / l`, a tie going to the even neighbour (the double quotient Python rounds is left out) |
| Batch.NearestUnique | app.py:142 | at most one integer is nearest to `f / l` with ties to even |
| Batch.RoundHalfEvenUnique | app.py:142 | any integer nearest to `f / l` with ties to even is `RoundHalfEven(f, l)` |
| Batch.Repeat | app.py:142-144 | `[x]*n` has `max(n, 0)` entries, all `x` |
| Batch.FirmsPerLabel | app.py:142 | `number_labels == 0` raises `ZeroDivisionError`; otherwise there is one entry per label (none for a negative count), each the integer nearest to `F/L`, a tie going to the even one (`Nearest`, which `RoundHalfEvenUnique` shows picks exactly `RoundHalfEven`) |
| Batch.Capacities | app.py:143-144 | a given `connect_vector` is kept, and a missing one is `[1]*number_labels` |
| Batch.Seeds | app.py:145-146 | one seed per graph, each in `1..100000` |
| Batch.Runs | app.py:155-158 | after `k` iterations the loop has `k` graphs |
| Batch.RunsAt | app.py:155-158 | the loop finishes exactly when no graph raises, and graph `i` is the one made from seed `i` |
| Batch.RunsErrorStays | app.py:155-158 | the first exception ends the loop |
| Batch.BatchShape | app.py:142-160 | a batch holds `number_graphs` graphs, graph `i` being `create_graph` with seed `i`, plus the rounded `firms_per_label` |
| Batch.RunsGenerate | app.py:155-158 | the loop finishes exactly when every seed's `create_graph` returns |
| Batch.BatchRaises | app.py:142-160 | without labels the batch raises `ZeroDivisionError`; otherwise it finishes exactly when every graph's `create_graph` returns |
| Batch.DefaultCapacitiesNeverRaise | app.py:143-156 | with the default `connect_vector` and at least one label, the batch never raises |
| Batch.CreateMultipleGraphs | app.py:142-160 | `create_multiple_graphs` returns the batch, or the first exception |

## Left out

- Firm and product positions, `measure_node_distance` and the `< radius` comparison (app.py:7-17, 48, 58, 60-61) are floating-point geometry. They are the oracle `Chance.near`.
- The draws of `rnd.random`, `rnd.sample` and `rnd.randint`, and the Mersenne Twister behind `rnd.seed`, are oracles (`Chance.below`, `BatchChance.draw`, `BatchChance.stream`). Seed reproducibility is therefore not modelled.
- Sampling.Sample: models CPython's pool branch only. CPython uses that branch when the population is no larger than a threshold (21 for samples of at most 5 elements, larger for bigger samples). Above the threshold it uses a set-based branch, which draws in a different order. The contract (distinct pool members, exactly `m` of them) holds for both.
- Batch.RoundHalfEven: rounds the exact rational `F/L`. Python first computes `number_firms/number_labels` as the double nearest to `F/L` and rounds that double, so the two results can differ whenever `F/L` is not exactly a double, for instance once `|F/L| >= 2^53` (F = 2^53 + 1, L = 1 gives 9007199254740992 in Python and 9007199254740993 here).
- Batch.FirmsPerLabel: does not model the `OverflowError` that the division at app.py:142 raises when the quotient lies beyond the double range (F = 10^400, L = 1); the model returns the rounded exact quotient there.
- `radius` is not a parameter of the model. It is folded into the streams, and the batch record does not carry it.
- Graph numbering `graph_num`, the Graphviz PDF and its file name (app.py:108-119), the `pdfs` list, and the Flask routes and form handling (app.py:162-308) are I/O and are not modelled.
- `nx.node_link_data` (app.py:106) is not modelled. `OG` is a node set and an edge set, so its node and edge order is left out.
- `nx.relabel_nodes` (app.py:83) is modelled only for one-to-one mappings, which is the only kind the code builds.
- Predecessor lists (`Graphs.Sources`) are in node order. That is the order of the graph `relabel_nodes` builds, where the order decides the order of firms in each `product` list (app.py:91-93). Before relabelling only their emptiness is used (app.py:74).
- In-place mutation of the networkx graph across the three `G` phases is modelled on the `DiGraph` class. Aliasing between graphs does not arise, because `relabel_nodes` returns a fresh copy.
