/** Product assembly (app.py:55-70): each attempt picks, label by label, a
    capacity-bounded sample of the firms near the product, and the candidate is
    kept when it has more than one firm and is not a repeat. */
module Assembly {
  import opened Graphs
  import opened Results
  import opened Sampling
  import opened Firms

  function Min(x: int, y: int): int
  {
    if x <= y then x else y
  }

  /** `nodes_in_range`: the firms of `block` near attempt `a`'s product, in block order. */
  function NearFirms(block: seq<int>, ch: Chance, a: nat): (r: seq<int>)
    ensures forall n :: n in r <==> n in block && ch.near(a, n)
    ensures Increasing(block) ==> Increasing(r)
    decreases |block|
  {
    if block == [] then []
    else
      var init := NearFirms(block[..|block| - 1], ch, a);
      var last := block[|block| - 1];
      assert forall n :: n in block[..|block| - 1] ==> n in block;
      assert Increasing(block) ==> Increasing(init + [last]) by {
        if Increasing(block) {
          assert Increasing(block[..|block| - 1]);
          forall i | 0 <= i < |init| ensures init[i] < last {
            assert init[i] in init;
            var j :| 0 <= j < |block| - 1 && block[j] == init[i];
          }
        }
      }
      if ch.near(a, last) then init + [last] else init
  }

  /** The firms of label `k` near attempt `a`'s product. */
  function InRange(fpl: seq<int>, ch: Chance, a: nat, k: nat): seq<int>
    requires k < |fpl|
  {
    NearFirms(Block(fpl, k), ch, a)
  }

  /** `nodes_in_range` of every label on attempt `a`. */
  function Nears(fpl: seq<int>, ch: Chance, a: nat): (ns: seq<seq<int>>)
    ensures |ns| == |fpl|
  {
    NearsUpTo(fpl, ch, a, |fpl|)
  }

  /** `nodes_in_range` of labels `0..k-1`. */
  function NearsUpTo(fpl: seq<int>, ch: Chance, a: nat, k: nat): (ns: seq<seq<int>>)
    requires k <= |fpl|
    ensures |ns| == k
  {
    if k == 0 then [] else NearsUpTo(fpl, ch, a, k - 1) + [InRange(fpl, ch, a, k - 1)]
  }

  lemma {:induction false} NearsUpToAt(fpl: seq<int>, ch: Chance, a: nat, k: nat, i: nat)
    requires i < k <= |fpl|
    ensures NearsUpTo(fpl, ch, a, k)[i] == InRange(fpl, ch, a, i)
    decreases k
  {
    if i < k - 1 {
      NearsUpToAt(fpl, ch, a, k - 1, i);
    }
  }

  /** Label `k`'s list in `nears` holds distinct firms of label `k`, all near
      the product of attempt `a`. */
  predicate NearsIn(fpl: seq<int>, ch: Chance, a: nat, nears: seq<seq<int>>)
  {
    && |nears| == |fpl|
    && forall k :: 0 <= k < |fpl| ==>
         && Distinct(nears[k])
         && forall f :: f in nears[k] ==> Start(fpl, k) <= f < Start(fpl, k) + Count(fpl[k]) && ch.near(a, f)
  }

  /** The in-range lists are those of the firms near the product, label by label. */
  lemma NearsFacts(fpl: seq<int>, ch: Chance, a: nat)
    ensures NearsIn(fpl, ch, a, Nears(fpl, ch, a))
  {
    var nears := Nears(fpl, ch, a);
    forall k | 0 <= k < |fpl|
      ensures && Distinct(nears[k])
              && forall f :: f in nears[k] ==> Start(fpl, k) <= f < Start(fpl, k) + Count(fpl[k]) && ch.near(a, f)
    {
      RangeIncreasing(Start(fpl, k), Start(fpl, k) + Count(fpl[k]));
      NearsUpToAt(fpl, ch, a, |fpl|, k);
    }
  }

  /** `chosen_nodes` for label `k` on attempt `a`, from that label's in-range
      firms `near`: nothing when none is near, otherwise a sample of
      `min(len(nodes_in_range), connect_vector[k])` of them. */
  function Selection(near: seq<int>, cap: seq<int>, ch: Chance, a: nat, k: nat): Result<seq<int>>
  {
    if |near| == 0 then Ok([])
    else if k >= |cap| then Err(CapacityMissing(k))
    else if Min(|near|, cap[k]) < 0 then Err(NegativeSampleSize(k))
    else Ok(Sample(near, Min(|near|, cap[k]), ch, a, k, 0))
  }

  /** A selection holds distinct in-range firms, exactly
      `min(len(nodes_in_range), connect_vector[k])` of them; indexing a missing
      capacity or sampling a negative count fails, and nothing else does. */
  lemma SelectionSpec(near: seq<int>, cap: seq<int>, ch: Chance, a: nat, k: nat)
    ensures var r := Selection(near, cap, ch, a, k);
      && (r.Err? <==> |near| > 0 && (k >= |cap| || cap[k] < 0))
      && (r.Err? ==> r.error == if k >= |cap| then CapacityMissing(k) else NegativeSampleSize(k))
      && (r.Ok? ==> && (Distinct(near) ==> Distinct(r.value))
                    && (forall n :: n in r.value ==> n in near)
                    && |r.value| == if |near| == 0 then 0 else Min(|near|, cap[k]))
  {
  }

  /** `new_product` once labels `0..k-1` have been visited, given their
      in-range lists. */
  function Collect(nears: seq<seq<int>>, cap: seq<int>, ch: Chance, a: nat, k: nat): Result<seq<int>>
    requires k <= |nears|
  {
    if k == 0 then Ok([])
    else
      match Collect(nears, cap, ch, a, k - 1)
      case Err(e) => Err(e)
      case Ok(c) =>
        match Selection(nears[k - 1], cap, ch, a, k - 1)
        case Err(e) => Err(e)
        case Ok(s) => Ok(c + s)
  }

  /** `new_product` at the end of attempt `a`. */
  function Candidate(fpl: seq<int>, cap: seq<int>, ch: Chance, a: nat): Result<seq<int>>
  {
    Collect(Nears(fpl, ch, a), cap, ch, a, |fpl|)
  }

  /** The acceptance test of app.py:65: Python list membership, so the same firms
      in another order are a new product. */
  function Admit(ps: seq<seq<int>>, c: seq<int>): seq<seq<int>>
  {
    if c !in ps && |c| > 1 then ps + [c] else ps
  }

  /** `product_list` after `a` attempts. */
  function Accepted(fpl: seq<int>, cap: seq<int>, ch: Chance, a: nat): Result<seq<seq<int>>>
  {
    if a == 0 then Ok([])
    else
      match Accepted(fpl, cap, ch, a - 1)
      case Err(e) => Err(e)
      case Ok(ps) =>
        match Candidate(fpl, cap, ch, a - 1)
        case Err(e) => Err(e)
        case Ok(c) => Ok(Admit(ps, c))
  }

  /** The edges from the firms of product `c` to its node `p`. */
  function ProductEdges(c: seq<int>, p: int): set<(int, int)>
  {
    set f | f in c :: (f, p)
  }

  /** Edges of the auxiliary graph: product `i` is node `n + i`. */
  function AuxEdges(n: int, ps: seq<seq<int>>): set<(int, int)>
  {
    if ps == [] then {}
    else AuxEdges(n, ps[..|ps| - 1]) + ProductEdges(ps[|ps| - 1], n + |ps| - 1)
  }

  /** The auxiliary graph once every accepted product has been added. */
  function ProductGraph(fpl: seq<int>, ps: seq<seq<int>>): Graph
  {
    Graph(Range(0, FirmCount(fpl) + |ps|), FirmLabels(fpl), AuxEdges(FirmCount(fpl), ps))
  }

  /** The firms of `c` whose ids lie in `lo..hi-1`, in order. */
  function Within(c: seq<int>, lo: int, hi: int): (r: seq<int>)
    ensures forall f :: f in r <==> f in c && lo <= f < hi
    decreases |c|
  {
    if c == [] then []
    else
      var init := Within(c[..|c| - 1], lo, hi);
      assert forall f :: f in c[..|c| - 1] ==> f in c;
      if lo <= c[|c| - 1] < hi then init + [c[|c| - 1]] else init
  }

  /** The firms of label `k` in product `c`. */
  function PerLabel(fpl: seq<int>, c: seq<int>, k: nat): seq<int>
    requires k < |fpl|
  {
    Within(c, Start(fpl, k), Start(fpl, k) + Count(fpl[k]))
  }

  /** What `connect_vector` lets one product draw from label `k`. */
  function Capacity(cap: seq<int>, k: nat): nat
  {
    if k < |cap| then Count(cap[k]) else 0
  }

  lemma {:induction false} WithinConcat(c: seq<int>, s: seq<int>, lo: int, hi: int)
    ensures Within(c + s, lo, hi) == Within(c, lo, hi) + Within(s, lo, hi)
    decreases |s|
  {
    if s == [] {
      assert c + s == c;
    } else {
      assert (c + s)[..|c + s| - 1] == c + s[..|s| - 1];
      WithinConcat(c, s[..|s| - 1], lo, hi);
    }
  }

  lemma {:induction false} WithinAll(s: seq<int>, lo: int, hi: int)
    requires forall f :: f in s ==> lo <= f < hi
    ensures Within(s, lo, hi) == s
    decreases |s|
  {
    if s != [] {
      var init := s[..|s| - 1];
      assert forall f :: f in init ==> f in s;
      assert s[|s| - 1] in s;
      WithinAll(init, lo, hi);
      assert s == init + [s[|s| - 1]];
    }
  }

  lemma {:induction false} WithinNone(s: seq<int>, lo: int, hi: int)
    requires forall f :: f in s ==> !(lo <= f < hi)
    ensures Within(s, lo, hi) == []
    decreases |s|
  {
    if s != [] {
      var init := s[..|s| - 1];
      assert forall f :: f in init ==> f in s;
      assert s[|s| - 1] in s;
      WithinNone(init, lo, hi);
    }
  }

  lemma DistinctConcat(c: seq<int>, s: seq<int>)
    requires Distinct(c) && Distinct(s)
    requires forall f :: f in s ==> f !in c
    ensures Distinct(c + s)
  {
    forall i, j | 0 <= i < j < |c + s| ensures (c + s)[i] != (c + s)[j] {
      if i < |c| <= j {
        assert (c + s)[j] == s[j - |c|] && (c + s)[j] in s;
      } else if |c| <= i {
        assert (c + s)[i] == s[i - |c|] && (c + s)[j] == s[j - |c|];
      }
    }
  }

  /** Appending firms outside `lo..hi-1` leaves that range's firms unchanged. */
  lemma AppendOutside(c: seq<int>, s: seq<int>, lo: int, hi: int)
    requires forall f :: f in s ==> !(lo <= f < hi)
    ensures Within(c + s, lo, hi) == Within(c, lo, hi)
  {
    WithinConcat(c, s, lo, hi);
    WithinNone(s, lo, hi);
    assert Within(c, lo, hi) + [] == Within(c, lo, hi);
  }

  /** Appending firms of `lo..hi-1` to firms below `lo`: that range holds just them. */
  lemma AppendInside(c: seq<int>, s: seq<int>, lo: int, hi: int)
    requires forall f :: f in c ==> f < lo
    requires forall f :: f in s ==> lo <= f < hi
    ensures Within(c + s, lo, hi) == s
  {
    WithinConcat(c, s, lo, hi);
    WithinNone(c, lo, hi);
    WithinAll(s, lo, hi);
    assert [] + s == s;
  }

  /** Label `j`'s firms, those in `lo..hi-1`, after appending label `l`'s
      selection `s` to `c`, which holds firms of labels below `l`. */
  lemma WithinAppendLabel(fpl: seq<int>, c: seq<int>, s: seq<int>, j: nat, l: nat, lo: int, hi: int)
    requires j <= l < |fpl|
    requires lo == Start(fpl, j) && hi == Start(fpl, j) + Count(fpl[j])
    requires forall f :: f in c ==> f < Start(fpl, l)
    requires forall f :: f in s ==> Start(fpl, l) <= f < Start(fpl, l) + Count(fpl[l])
    ensures Within(c + s, lo, hi) == if j < l then Within(c, lo, hi) else s
  {
    if j < l {
      assert hi <= Start(fpl, l) by {
        BlocksOrdered(fpl, j, l);
      }
      AppendOutside(c, s, lo, hi);
    } else {
      AppendInside(c, s, lo, hi);
    }
  }

  /** A collection over labels `0..k-1` extends the one over `0..k-2` by label `k-1`'s selection. */
  lemma CollectStep(nears: seq<seq<int>>, cap: seq<int>, ch: Chance, a: nat, k: nat)
    requires 0 < k <= |nears|
    requires Collect(nears, cap, ch, a, k).Ok?
    ensures Collect(nears, cap, ch, a, k - 1).Ok? && Selection(nears[k - 1], cap, ch, a, k - 1).Ok?
    ensures Collect(nears, cap, ch, a, k).value
         == Collect(nears, cap, ch, a, k - 1).value + Selection(nears[k - 1], cap, ch, a, k - 1).value
  {
  }

  /** A label's selection holds firms of that label only, each near the product. */
  lemma SelectionInBlock(fpl: seq<int>, nears: seq<seq<int>>, cap: seq<int>, ch: Chance, a: nat, k: nat)
    requires NearsIn(fpl, ch, a, nears)
    requires k < |fpl|
    requires Selection(nears[k], cap, ch, a, k).Ok?
    ensures var s := Selection(nears[k], cap, ch, a, k).value;
      && Distinct(s)
      && forall f :: f in s ==> Start(fpl, k) <= f < Start(fpl, k) + Count(fpl[k]) && ch.near(a, f)
  {
    SelectionSpec(nears[k], cap, ch, a, k);
  }

  /** A collection holds distinct firms, each near the product and of a label
      already visited. */
  lemma {:induction false} CollectFirms(fpl: seq<int>, nears: seq<seq<int>>, cap: seq<int>, ch: Chance, a: nat, k: nat)
    requires NearsIn(fpl, ch, a, nears)
    requires k <= |fpl|
    requires Collect(nears, cap, ch, a, k).Ok?
    ensures var c := Collect(nears, cap, ch, a, k).value;
      && Distinct(c)
      && (forall f :: f in c ==> 0 <= f < Start(fpl, k) && ch.near(a, f))
    decreases k
  {
    if k > 0 {
      CollectStep(nears, cap, ch, a, k);
      CollectFirms(fpl, nears, cap, ch, a, k - 1);
      var prev := Collect(nears, cap, ch, a, k - 1).value;
      var s := Selection(nears[k - 1], cap, ch, a, k - 1).value;
      SelectionInBlock(fpl, nears, cap, ch, a, k - 1);
      DistinctConcat(prev, s);
    }
  }

  /** The firms of label `j` in a collection are exactly that label's selection. */
  lemma {:induction false} CollectPerLabel(fpl: seq<int>, nears: seq<seq<int>>, cap: seq<int>, ch: Chance,
                                           a: nat, k: nat, j: nat)
    requires NearsIn(fpl, ch, a, nears)
    requires j < k <= |fpl|
    requires Collect(nears, cap, ch, a, k).Ok?
    ensures Selection(nears[j], cap, ch, a, j).Ok?
    ensures PerLabel(fpl, Collect(nears, cap, ch, a, k).value, j) == Selection(nears[j], cap, ch, a, j).value
    decreases k
  {
    CollectStep(nears, cap, ch, a, k);
    var cur := Collect(nears, cap, ch, a, k).value;
    var prev := Collect(nears, cap, ch, a, k - 1).value;
    var s := Selection(nears[k - 1], cap, ch, a, k - 1).value;
    var lo, hi := Start(fpl, j), Start(fpl, j) + Count(fpl[j]);
    assert PerLabel(fpl, cur, j) == Within(cur, lo, hi);
    SelectionInBlock(fpl, nears, cap, ch, a, k - 1);
    assert forall f :: f in prev ==> f < Start(fpl, k - 1) by {
      CollectFirms(fpl, nears, cap, ch, a, k - 1);
    }
    WithinAppendLabel(fpl, prev, s, j, k - 1, lo, hi);
    if j < k - 1 {
      CollectPerLabel(fpl, nears, cap, ch, a, k - 1, j);
      assert PerLabel(fpl, prev, j) == Within(prev, lo, hi);
    }
  }

  /** A candidate holds distinct firms, each near the product. */
  lemma CandidateFirms(fpl: seq<int>, cap: seq<int>, ch: Chance, a: nat)
    requires Candidate(fpl, cap, ch, a).Ok?
    ensures var c := Candidate(fpl, cap, ch, a).value;
      && Distinct(c)
      && (forall f :: f in c ==> 0 <= f < FirmCount(fpl) && ch.near(a, f))
  {
    NearsFacts(fpl, ch, a);
    CollectFirms(fpl, Nears(fpl, ch, a), cap, ch, a, |fpl|);
  }

  /** A candidate holds at most `connect_vector[j]` firms of label `j`, and
      exactly `min(len(nodes_in_range), connect_vector[j])` when that is not negative. */
  lemma CandidatePerLabel(fpl: seq<int>, cap: seq<int>, ch: Chance, a: nat, j: nat)
    requires Candidate(fpl, cap, ch, a).Ok?
    requires j < |fpl|
    ensures var n := |InRange(fpl, ch, a, j)|;
      && (n == 0 ==> |PerLabel(fpl, Candidate(fpl, cap, ch, a).value, j)| == 0)
      && (n > 0 ==> j < |cap| && |PerLabel(fpl, Candidate(fpl, cap, ch, a).value, j)| == Min(n, cap[j]))
    ensures |PerLabel(fpl, Candidate(fpl, cap, ch, a).value, j)| <= Capacity(cap, j)
  {
    var nears := Nears(fpl, ch, a);
    NearsFacts(fpl, ch, a);
    CollectPerLabel(fpl, nears, cap, ch, a, |fpl|, j);
    SelectionSpec(nears[j], cap, ch, a, j);
    NearsUpToAt(fpl, ch, a, |fpl|, j);
  }

  /** Product `p` is the candidate of one of the first `a` attempts. */
  ghost predicate FromAttempt(fpl: seq<int>, cap: seq<int>, ch: Chance, a: nat, p: seq<int>)
  {
    exists b :: 0 <= b < a && Candidate(fpl, cap, ch, b) == Ok(p)
  }

  /** One acceptance test keeps `product_list` free of repeats and of
      single-firm entries, adds at most the candidate `c`, and adds it
      whenever it has more than one firm. */
  lemma AdmitKeeps(ps: seq<seq<int>>, c: seq<int>)
    requires forall i, j :: 0 <= i < j < |ps| ==> ps[i] != ps[j]
    requires forall i :: 0 <= i < |ps| ==> |ps[i]| > 1
    ensures var qs := Admit(ps, c);
      && |ps| <= |qs| <= |ps| + 1
      && qs[..|ps|] == ps
      && (forall i, j :: 0 <= i < j < |qs| ==> qs[i] != qs[j])
      && (forall i :: 0 <= i < |qs| ==> |qs[i]| > 1)
      && (forall i :: 0 <= i < |qs| ==> qs[i] == c || (i < |ps| && qs[i] == ps[i]))
      && (|c| > 1 ==> c in qs)
  {
    var qs := Admit(ps, c);
    AdmitAdds(ps, c);
    if c !in ps && |c| > 1 {
      forall i, j | 0 <= i < j < |qs| ensures qs[i] != qs[j] {
        if j == |ps| {
          assert qs[i] in ps;
        }
      }
    }
  }

  /** `product_list` never holds two equal lists; every entry has more than one
      firm and is the candidate of an earlier attempt. */
  lemma {:induction false} AcceptedFacts(fpl: seq<int>, cap: seq<int>, ch: Chance, a: nat)
    requires Accepted(fpl, cap, ch, a).Ok?
    ensures var ps := Accepted(fpl, cap, ch, a).value;
      && |ps| <= a
      && (forall i, j :: 0 <= i < j < |ps| ==> ps[i] != ps[j])
      && (forall i :: 0 <= i < |ps| ==> |ps[i]| > 1)
      && (forall i :: 0 <= i < |ps| ==> FromAttempt(fpl, cap, ch, a, ps[i]))
    decreases a
  {
    if a > 0 {
      AcceptedFacts(fpl, cap, ch, a - 1);
      var ps := Accepted(fpl, cap, ch, a - 1).value;
      var c := Candidate(fpl, cap, ch, a - 1).value;
      var qs := Admit(ps, c);
      assert Accepted(fpl, cap, ch, a).value == qs;
      AdmitKeeps(ps, c);
      forall i | 0 <= i < |qs|
        ensures FromAttempt(fpl, cap, ch, a, qs[i])
      {
        if qs[i] == c {
          assert Candidate(fpl, cap, ch, a - 1) == Ok(qs[i]);
        } else {
          var b :| 0 <= b < a - 1 && Candidate(fpl, cap, ch, b) == Ok(ps[i]);
        }
      }
    }
  }

  /** Conversely, every earlier attempt yields a candidate, and each candidate
      with more than one firm is in `product_list`. */
  lemma {:induction false} AcceptedComplete(fpl: seq<int>, cap: seq<int>, ch: Chance, a: nat, b: nat)
    requires Accepted(fpl, cap, ch, a).Ok?
    requires b < a
    ensures Candidate(fpl, cap, ch, b).Ok?
    ensures |Candidate(fpl, cap, ch, b).value| > 1 ==>
      Candidate(fpl, cap, ch, b).value in Accepted(fpl, cap, ch, a).value
    decreases a
  {
    var ps := Accepted(fpl, cap, ch, a - 1).value;
    var c := Candidate(fpl, cap, ch, a - 1).value;
    AcceptedStep(fpl, cap, ch, a);
    assert Accepted(fpl, cap, ch, a).value == Admit(ps, c);
    AdmitGrows(ps, c);
    if b < a - 1 {
      AcceptedComplete(fpl, cap, ch, a - 1, b);
    } else {
      AdmitAdds(ps, c);
    }
  }

  /** An acceptance test never drops an entry of `product_list`. */
  lemma AdmitGrows(ps: seq<seq<int>>, c: seq<int>)
    ensures forall p :: p in ps ==> p in Admit(ps, c)
  {
  }

  /** A candidate with more than one firm is in `product_list` after its test. */
  lemma AdmitAdds(ps: seq<seq<int>>, c: seq<int>)
    ensures |c| > 1 ==> c in Admit(ps, c)
  {
    if |c| > 1 && c !in ps {
      assert Admit(ps, c)[|ps|] == c;
    }
  }

  /** Every accepted product is a list of distinct firms, at most
      `connect_vector[j]` of them of label `j`. */
  lemma AcceptedProductsAreFirms(fpl: seq<int>, cap: seq<int>, ch: Chance, a: nat, i: nat)
    requires Accepted(fpl, cap, ch, a).Ok?
    requires i < |Accepted(fpl, cap, ch, a).value|
    ensures var p := Accepted(fpl, cap, ch, a).value[i];
      && |p| > 1 && Distinct(p)
      && (forall f :: f in p ==> 0 <= f < FirmCount(fpl))
      && (forall j :: 0 <= j < |fpl| ==> |PerLabel(fpl, p, j)| <= Capacity(cap, j))
  {
    AcceptedFacts(fpl, cap, ch, a);
    var p := Accepted(fpl, cap, ch, a).value[i];
    var b :| 0 <= b < a && Candidate(fpl, cap, ch, b) == Ok(p);
    CandidateFirms(fpl, cap, ch, b);
    forall j | 0 <= j < |fpl| ensures |PerLabel(fpl, p, j)| <= Capacity(cap, j) {
      CandidatePerLabel(fpl, cap, ch, b, j);
    }
  }

  /** An edge of the auxiliary graph runs from a firm of product `i` to the
      product's node `n + i`, and every such pair is an edge. */
  lemma {:induction false} AuxEdgesAt(n: int, ps: seq<seq<int>>, u: int, v: int)
    ensures (u, v) in AuxEdges(n, ps) <==> n <= v < n + |ps| && u in ps[v - n]
    decreases |ps|
  {
    if ps != [] {
      var init := ps[..|ps| - 1];
      AuxEdgesAt(n, init, u, v);
      if n <= v < n + |ps| - 1 {
        assert ps[v - n] == init[v - n];
      }
    }
  }

  /** An exception raised on label `k` ends the attempt: no later label changes it. */
  lemma {:induction false} CollectErrorStays(nears: seq<seq<int>>, cap: seq<int>, ch: Chance, a: nat, k: nat, m: nat)
    requires k <= m <= |nears|
    requires Collect(nears, cap, ch, a, k).Err?
    ensures Collect(nears, cap, ch, a, m) == Collect(nears, cap, ch, a, k)
    decreases m
  {
    if k < m {
      CollectErrorStays(nears, cap, ch, a, k, m - 1);
    }
  }

  /** An exception raised on attempt `a` ends the run: no later attempt changes it. */
  lemma {:induction false} AcceptedErrorStays(fpl: seq<int>, cap: seq<int>, ch: Chance, a: nat, b: nat)
    requires a <= b
    requires Accepted(fpl, cap, ch, a).Err?
    ensures Accepted(fpl, cap, ch, b) == Accepted(fpl, cap, ch, a)
    decreases b
  {
    if a < b {
      AcceptedErrorStays(fpl, cap, ch, a, b - 1);
    }
  }

  /** Visiting label `j` with in-range firms `near` raises: `connect_vector[j]`
      is missing or negative while some firm is in range. */
  predicate Raises(near: seq<int>, cap: seq<int>, j: nat)
  {
    |near| > 0 && (j >= |cap| || cap[j] < 0)
  }

  /** The exception label `j` raises. */
  function RaisedBy(cap: seq<int>, j: nat): Error
  {
    if j >= |cap| then CapacityMissing(j) else NegativeSampleSize(j)
  }

  /** Visiting labels `0..k-1` succeeds exactly when none of them raises;
      otherwise the exception is the one of the first label that raises. */
  lemma {:induction false} CollectRaises(nears: seq<seq<int>>, cap: seq<int>, ch: Chance, a: nat, k: nat)
    requires k <= |nears|
    ensures Collect(nears, cap, ch, a, k).Ok? <==> forall j :: 0 <= j < k ==> !Raises(nears[j], cap, j)
    ensures Collect(nears, cap, ch, a, k).Err? ==>
      exists j :: 0 <= j < k && Raises(nears[j], cap, j)
                && (forall i :: 0 <= i < j ==> !Raises(nears[i], cap, i))
                && Collect(nears, cap, ch, a, k).error == RaisedBy(cap, j)
    decreases k
  {
    if k > 0 {
      CollectRaises(nears, cap, ch, a, k - 1);
      if Collect(nears, cap, ch, a, k - 1).Ok? {
        SelectionSpec(nears[k - 1], cap, ch, a, k - 1);
        if Collect(nears, cap, ch, a, k).Err? {
          assert Raises(nears[k - 1], cap, k - 1);
        }
      }
    }
  }

  /** Some label raises on attempt `b`. */
  predicate AttemptRaises(fpl: seq<int>, cap: seq<int>, ch: Chance, b: nat)
  {
    exists j :: 0 <= j < |fpl| && Raises(Nears(fpl, ch, b)[j], cap, j)
  }

  /** Attempt `b` yields a candidate exactly when none of its labels raises. */
  lemma CandidateRaises(fpl: seq<int>, cap: seq<int>, ch: Chance, b: nat)
    ensures Candidate(fpl, cap, ch, b).Ok? <==> !AttemptRaises(fpl, cap, ch, b)
  {
    CollectRaises(Nears(fpl, ch, b), cap, ch, b, |fpl|);
  }

  /** Attempt `a - 1` raises exactly when its candidate does, once the
      earlier attempts went through. */
  lemma AcceptedStep(fpl: seq<int>, cap: seq<int>, ch: Chance, a: nat)
    requires a > 0
    ensures Accepted(fpl, cap, ch, a).Ok? <==>
      Accepted(fpl, cap, ch, a - 1).Ok? && Candidate(fpl, cap, ch, a - 1).Ok?
  {
  }

  /** The run survives `a` attempts exactly when each of them yields a candidate. */
  lemma {:induction false} AcceptedOk(fpl: seq<int>, cap: seq<int>, ch: Chance, a: nat)
    ensures Accepted(fpl, cap, ch, a).Ok? <==> forall b :: 0 <= b < a ==> Candidate(fpl, cap, ch, b).Ok?
    decreases a
  {
    if a > 0 {
      AcceptedOk(fpl, cap, ch, a - 1);
      AcceptedStep(fpl, cap, ch, a);
      assert (forall b :: 0 <= b < a ==> Candidate(fpl, cap, ch, b).Ok?) <==>
        (forall b :: 0 <= b < a - 1 ==> Candidate(fpl, cap, ch, b).Ok?) && Candidate(fpl, cap, ch, a - 1).Ok?;
    }
  }

  /** The run survives `a` attempts exactly when none of them raises. */
  lemma AcceptedRaises(fpl: seq<int>, cap: seq<int>, ch: Chance, a: nat)
    ensures Accepted(fpl, cap, ch, a).Ok? <==> forall b :: 0 <= b < a ==> !AttemptRaises(fpl, cap, ch, b)
  {
    AcceptedOk(fpl, cap, ch, a);
    forall b | 0 <= b < a {
      CandidateRaises(fpl, cap, ch, b);
    }
  }

  /** A `connect_vector` with a non-negative entry for every label never
      raises, whatever the random stream. */
  lemma CapacitiesNeverRaise(fpl: seq<int>, cap: seq<int>, ch: Chance, a: nat)
    requires |cap| >= |fpl|
    requires forall j :: 0 <= j < |fpl| ==> cap[j] >= 0
    ensures Accepted(fpl, cap, ch, a).Ok?
  {
    AcceptedRaises(fpl, cap, ch, a);
  }

  lemma NearsAt(fpl: seq<int>, ch: Chance, a: nat, k: nat)
    requires k < |fpl|
    ensures Nears(fpl, ch, a)[k] == NearFirms(LabelBlocks(fpl)[k], ch, a)
  {
    NearsUpToAt(fpl, ch, a, |fpl|, k);
  }

  lemma CollectNext(nears: seq<seq<int>>, cap: seq<int>, ch: Chance, a: nat, k: nat, c: seq<int>)
    requires k < |nears|
    requires Collect(nears, cap, ch, a, k) == Ok(c)
    ensures Collect(nears, cap, ch, a, k + 1)
         == match Selection(nears[k], cap, ch, a, k)
            case Err(e) => Err(e)
            case Ok(s) => Ok(c + s)
  {
  }

  /** One pass of the label loop (app.py:60-64) for label `k`. */
  method PickLabel(labelNodes: seq<seq<int>>, fpl: seq<int>, cap: seq<int>, ch: Chance, a: nat, k: nat,
                   newProduct: seq<int>, ghost nears: seq<seq<int>>) returns (r: Result<seq<int>>)
    requires labelNodes == LabelBlocks(fpl) && nears == Nears(fpl, ch, a)
    requires k < |fpl|
    requires Collect(nears, cap, ch, a, k) == Ok(newProduct)
    ensures r == Collect(nears, cap, ch, a, k + 1)
  {
    var inRange := NearFirms(labelNodes[k], ch, a);
    assert inRange == nears[k] by {
      NearsAt(fpl, ch, a, k);
    }
    var chosen := Selection(inRange, cap, ch, a, k);
    CollectNext(nears, cap, ch, a, k, newProduct);
    if chosen.Err? {
      return Err(chosen.error);
    }
    r := Ok(newProduct + chosen.value);
  }

  /** The label loop of app.py:59-64 on attempt `a`: `new_product` is built
      from `label_nodes`, or the first exception is returned. */
  method PickFirms(labelNodes: seq<seq<int>>, fpl: seq<int>, cap: seq<int>, ch: Chance, a: nat)
    returns (r: Result<seq<int>>)
    requires labelNodes == LabelBlocks(fpl)
    ensures r == Candidate(fpl, cap, ch, a)
  {
    ghost var nears := Nears(fpl, ch, a);
    var newProduct := [];
    for k := 0 to |fpl|
      invariant Collect(nears, cap, ch, a, k) == Ok(newProduct)
    {
      var next := PickLabel(labelNodes, fpl, cap, ch, a, k, newProduct, nears);
      if next.Err? {
        CollectErrorStays(nears, cap, ch, a, k + 1, |fpl|);
        return next;
      }
      newProduct := next.value;
    }
    r := Ok(newProduct);
  }

  lemma AuxEdgesSnoc(n: int, ps: seq<seq<int>>, c: seq<int>)
    ensures AuxEdges(n, ps + [c]) == AuxEdges(n, ps) + ProductEdges(c, n + |ps|)
  {
    assert (ps + [c])[..|ps|] == ps;
  }

  /** The loop of app.py:68-69: an edge from each firm of `c` to node `p`. */
  method AddEdges(g: DiGraph, c: seq<int>, p: int)
    requires p in g.nodes
    requires forall f :: f in c ==> f in g.nodes
    modifies g
    ensures g.nodes == old(g.nodes) && g.labels == old(g.labels)
    ensures g.edges == old(g.edges) + ProductEdges(c, p)
  {
    for j := 0 to |c|
      invariant g.nodes == old(g.nodes) && g.labels == old(g.labels)
      invariant g.edges == old(g.edges) + ProductEdges(c[..j], p)
    {
      assert c[j] in c;
      g.AddEdge(c[j], p);
      assert c[..j + 1] == c[..j] + [c[j]];
    }
    assert c[..|c|] == c;
  }

  /** Lines 67-70: the product's node `node` is added with an edge from each of
      its firms. */
  method AddProduct(g: DiGraph, fpl: seq<int>, ps: seq<seq<int>>, c: seq<int>, node: int)
    requires g.Value() == ProductGraph(fpl, ps)
    requires node == FirmCount(fpl) + |ps|
    requires forall f :: f in c ==> 0 <= f < FirmCount(fpl)
    modifies g
    ensures g.Value() == ProductGraph(fpl, ps + [c])
  {
    assert node !in g.nodes by {
      RangeIncreasing(0, node);
    }
    g.AddNode(node);
    RangeSnoc(0, node);
    assert forall f :: 0 <= f <= node ==> f in g.nodes by {
      RangeIncreasing(0, node + 1);
    }
    AddEdges(g, c, node);
    AuxEdgesSnoc(FirmCount(fpl), ps, c);
  }

  /** The attempt loop of app.py:55-70 on the graph of numbered firms. */
  method AssembleProducts(g: DiGraph, fpl: seq<int>, cap: seq<int>, ch: Chance,
                          labelNodes: seq<seq<int>>, numberProducts: int, node0: int)
    returns (r: Result<seq<seq<int>>>, node: int)
    requires g.Value() == FirmGraph(fpl)
    requires labelNodes == LabelBlocks(fpl)
    requires node0 == FirmCount(fpl)
    modifies g
    ensures r == Accepted(fpl, cap, ch, Count(numberProducts))
    ensures r.Ok? ==> g.Value() == ProductGraph(fpl, r.value) && node == FirmCount(fpl) + |r.value|
  {
    var productList := [];
    node := node0;
    for a := 0 to Count(numberProducts)
      invariant Accepted(fpl, cap, ch, a) == Ok(productList)
      invariant g.Value() == ProductGraph(fpl, productList)
      invariant node == FirmCount(fpl) + |productList|
    {
      var c := PickFirms(labelNodes, fpl, cap, ch, a);
      if c.Err? {
        r := Err(c.error);
        assert Accepted(fpl, cap, ch, a + 1) == r;
        AcceptedErrorStays(fpl, cap, ch, a + 1, Count(numberProducts));
        return;
      }
      var newProduct := c.value;
      assert Accepted(fpl, cap, ch, a + 1) == Ok(Admit(productList, newProduct));
      if newProduct !in productList && |newProduct| > 1 {
        assert forall f :: f in newProduct ==> 0 <= f < FirmCount(fpl) by {
          CandidateFirms(fpl, cap, ch, a);
        }
        AddProduct(g, fpl, productList, newProduct, node);
        productList := productList + [newProduct];
        node := node + 1;
      }
    }
    r := Ok(productList);
  }
}
