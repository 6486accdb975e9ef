/** Firm numbering (app.py:41-50): firms get consecutive ids, label by label. */
module Firms {
  import opened Graphs

  /** Number of iterations of `range(c)`: a negative count gives none. */
  function Count(c: int): nat
  {
    if c > 0 then c else 0
  }

  /** `list(range(lo, hi))` */
  function Range(lo: int, hi: int): seq<int>
    requires lo <= hi
  {
    seq(hi - lo, i => lo + i)
  }

  /** Id of the first firm of label `k`. */
  function Start(fpl: seq<int>, k: nat): nat
    requires k <= |fpl|
  {
    if k == 0 then 0 else Start(fpl, k - 1) + Count(fpl[k - 1])
  }

  /** Number of firms created, the value of `node` after the numbering loop. */
  function FirmCount(fpl: seq<int>): nat
  {
    Start(fpl, |fpl|)
  }

  /** `label_nodes[k]`: the ids of the firms of label `k`. */
  function Block(fpl: seq<int>, k: nat): seq<int>
    requires k < |fpl|
  {
    Range(Start(fpl, k), Start(fpl, k) + Count(fpl[k]))
  }

  /** `label_nodes` as a sequence indexed by label. */
  function LabelBlocks(fpl: seq<int>): seq<seq<int>>
  {
    seq(|fpl|, k requires 0 <= k < |fpl| => Block(fpl, k))
  }

  /** The label of every firm of labels `0..k-1`, indexed by firm id. */
  function LabelSeq(fpl: seq<int>, k: nat): (ls: seq<int>)
    requires k <= |fpl|
    ensures |ls| == Start(fpl, k)
    ensures forall n :: 0 <= n < |ls| ==> 0 <= ls[n] < k
  {
    if k == 0 then [] else LabelSeq(fpl, k - 1) + seq(Count(fpl[k - 1]), _ => k - 1)
  }

  /** Node `n` carries label `ls[n]`. */
  function LabelMap(ls: seq<int>): map<int, int>
  {
    map n | 0 <= n < |ls| :: ls[n]
  }

  /** The "label" attribute of every firm node: firms are exactly the ids
      `0..FirmCount(fpl)-1`, each with a label in `range(len(fpl))`. */
  function FirmLabels(fpl: seq<int>): (r: map<int, int>)
    ensures forall n :: n in r <==> 0 <= n < FirmCount(fpl)
    ensures forall n :: n in r ==> 0 <= r[n] < |fpl|
  {
    LabelMap(LabelSeq(fpl, |fpl|))
  }

  /** The auxiliary graph once every firm has been added. */
  function FirmGraph(fpl: seq<int>): Graph
  {
    Graph(Range(0, FirmCount(fpl)), FirmLabels(fpl), {})
  }

  lemma {:induction false} StartMonotone(fpl: seq<int>, j: nat, k: nat)
    requires j <= k <= |fpl|
    ensures Start(fpl, j) <= Start(fpl, k)
    decreases k
  {
    if j < k {
      StartMonotone(fpl, j, k - 1);
    }
  }

  /** Blocks of distinct labels are disjoint, the lower label's block coming first. */
  lemma {:induction false} BlocksOrdered(fpl: seq<int>, j: nat, k: nat)
    requires j < k <= |fpl|
    ensures Start(fpl, j) + Count(fpl[j]) <= Start(fpl, k)
  {
    StartMonotone(fpl, j + 1, k);
  }

  lemma {:induction false} BlockWithin(fpl: seq<int>, k: nat)
    requires k < |fpl|
    ensures Start(fpl, k) + Count(fpl[k]) <= FirmCount(fpl)
  {
    StartMonotone(fpl, k + 1, |fpl|);
  }

  /** The firm with id `n` carries label `ls[n]`, and sits in that label's block. */
  lemma {:induction false} LabelSeqInBlock(fpl: seq<int>, k: nat, n: int)
    requires k <= |fpl|
    requires 0 <= n < Start(fpl, k)
    ensures var l := LabelSeq(fpl, k)[n];
      0 <= l < k && Start(fpl, l) <= n < Start(fpl, l) + Count(fpl[l])
    decreases k
  {
    if n < Start(fpl, k - 1) {
      LabelSeqInBlock(fpl, k - 1, n);
    }
  }

  /** Firms get the ids `0..FirmCount(fpl)-1`, each carries a label, and the
      firms carrying label `k` are exactly the ids of `Block(fpl, k)`. */
  lemma FirmLabelsMatchBlocks(fpl: seq<int>, n: int, k: nat)
    requires k < |fpl|
    ensures n in FirmLabels(fpl) <==> 0 <= n < FirmCount(fpl)
    ensures n in FirmLabels(fpl) && FirmLabels(fpl)[n] == k <==> n in Block(fpl, k)
  {
    var b := Block(fpl, k);
    BlockWithin(fpl, k);
    if 0 <= n < FirmCount(fpl) {
      LabelSeqInBlock(fpl, |fpl|, n);
      var l := FirmLabels(fpl)[n];
      if l < k {
        BlocksOrdered(fpl, l, k);
      } else if k < l {
        BlocksOrdered(fpl, k, l);
      }
      assert n in b <==> Start(fpl, k) <= n < Start(fpl, k) + Count(fpl[k]) by {
        if Start(fpl, k) <= n < Start(fpl, k) + Count(fpl[k]) {
          assert b[n - Start(fpl, k)] == n;
        }
      }
    }
  }

  /** Label-major numbering: a firm never carries a smaller label than a firm
      numbered before it. */
  lemma LabelsNondecreasing(fpl: seq<int>, m: int, n: int)
    requires 0 <= m <= n < FirmCount(fpl)
    ensures FirmLabels(fpl)[m] <= FirmLabels(fpl)[n]
  {
    LabelSeqInBlock(fpl, |fpl|, m);
    LabelSeqInBlock(fpl, |fpl|, n);
    var lm, ln := FirmLabels(fpl)[m], FirmLabels(fpl)[n];
    if ln < lm {
      BlocksOrdered(fpl, ln, lm);
    }
  }

  lemma RangeSnoc(lo: int, hi: int)
    requires lo <= hi
    ensures Range(lo, hi) + [hi] == Range(lo, hi + 1)
  {
  }

  lemma RangeIncreasing(lo: int, hi: int)
    requires lo <= hi
    ensures Increasing(Range(lo, hi))
    ensures forall x :: x in Range(lo, hi) <==> lo <= x < hi
  {
    forall x | lo <= x < hi ensures x in Range(lo, hi) {
      assert Range(lo, hi)[x - lo] == x;
    }
  }

  lemma LabelMapSnoc(ls: seq<int>, k: int)
    ensures LabelMap(ls + [k]) == LabelMap(ls)[|ls| := k]
  {
  }

  /** The inner loop of app.py:44-50 for label `k`: the firms of that label are
      added one by one, numbered from `node`. */
  method AddLabelFirms(g: DiGraph, fpl: seq<int>, k: nat, node0: int) returns (sup: seq<int>, node: int)
    requires k < |fpl|
    requires node0 == Start(fpl, k)
    requires g.Value() == Graph(Range(0, node0), LabelMap(LabelSeq(fpl, k)), {})
    modifies g
    ensures node == Start(fpl, k + 1)
    ensures g.Value() == Graph(Range(0, node), LabelMap(LabelSeq(fpl, k + 1)), {})
    ensures sup == Block(fpl, k)
  {
    sup, node := [], node0;
    for i := 0 to Count(fpl[k])
      invariant node == node0 + i
      invariant g.nodes == Range(0, node)
      invariant g.labels == LabelMap(LabelSeq(fpl, k) + seq(i, _ => k))
      invariant g.edges == {}
      invariant sup == Range(node0, node)
    {
      assert node !in g.nodes by {
        RangeIncreasing(0, node);
      }
      g.AddNode(node);
      RangeSnoc(0, node);
      g.SetLabel(node, k);
      assert LabelSeq(fpl, k) + seq(i + 1, _ => k) == (LabelSeq(fpl, k) + seq(i, _ => k)) + [k];
      LabelMapSnoc(LabelSeq(fpl, k) + seq(i, _ => k), k);
      sup := sup + [node];
      RangeSnoc(node0, node);
      node := node + 1;
    }
  }

  /** The loops of app.py:41-50 on an empty graph `g`: every firm is added with
      its label, and `label_nodes` (here indexed by label) collects the ids. */
  method NumberFirms(g: DiGraph, fpl: seq<int>) returns (labelNodes: seq<seq<int>>, node: int)
    requires g.Value() == Graph([], map[], {})
    modifies g
    ensures g.Value() == FirmGraph(fpl)
    ensures labelNodes == LabelBlocks(fpl)
    ensures node == FirmCount(fpl)
  {
    labelNodes, node := [], 0;
    assert LabelMap([]) == map[];
    for k := 0 to |fpl|
      invariant node == Start(fpl, k)
      invariant g.Value() == Graph(Range(0, node), LabelMap(LabelSeq(fpl, k)), {})
      invariant labelNodes == LabelBlocks(fpl)[..k]
    {
      var sup;
      sup, node := AddLabelFirms(g, fpl, k, node);
      assert LabelBlocks(fpl)[..k + 1] == LabelBlocks(fpl)[..k] + [Block(fpl, k)];
      labelNodes := labelNodes + [sup];
    }
    assert LabelBlocks(fpl)[..|fpl|] == LabelBlocks(fpl);
  }
}
