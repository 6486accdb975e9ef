/** `create_multiple_graphs` (app.py:126-160): derive the parameters every
    graph shares, draw one seed per graph from the master seed, and generate
    the graphs in order. */
module Batch {
  import opened Results
  import opened Sampling
  import opened Firms
  import opened Layers
  import opened Generator

  /** The master stream of a batch. `draw(seed, i)`: the raw `randbelow`
      value behind the `i`-th `rnd.randint(1, 100000)` after `rnd.seed(seed)`.
      `stream(s)`: the stream (with the radius) `create_graph` sees after
      `rnd.seed(s)`. */
  datatype BatchChance = BatchChance(draw: (int, nat) -> nat, stream: int -> Chance)

  /** The dictionary `create_multiple_graphs` returns (the radius is part of
      the streams). */
  datatype GraphBatch = GraphBatch(firmsPerLabel: seq<int>, numberProducts: int, seed: int, graphs: seq<SupplyGraph>)

  /** `round(f / l)` for `l > 0`: the integer nearest to `f / l`, a tie going
      to the even neighbour. */
  function RoundHalfEven(f: int, l: int): (r: int)
    requires l > 0
    ensures -l <= 2 * (r * l - f) <= l
    ensures (2 * (r * l - f) == l || 2 * (r * l - f) == -l) ==> r % 2 == 0
  {
    var q, m := f / l, f % l;
    assert q * l + m == f;
    assert (q + 1) * l == q * l + l;
    if 2 * m < l then q
    else if 2 * m > l then q + 1
    else if q % 2 == 0 then q else q + 1
  }

  /** `r` is a nearest integer to `f / l`, the even one on a tie. */
  predicate Nearest(f: int, l: int, r: int)
  {
    && -l <= 2 * (r * l - f) <= l
    && ((2 * (r * l - f) == l || 2 * (r * l - f) == -l) ==> r % 2 == 0)
  }

  /** Proof helper: a multiple `d * l` with `d >= 2` is at least `2 * l`. */
  lemma {:induction false} MulGrows(d: nat, l: int)
    requires l > 0
    ensures d >= 2 ==> d * l >= 2 * l
    decreases d
  {
    if d > 2 {
      MulGrows(d - 1, l);
      assert d * l == (d - 1) * l + l;
    }
  }

  /** Proof helper: a multiple `d * l` of `l > 0` within `l` of zero has
      `|d| <= 1`. */
  lemma SmallMultiple(d: int, l: int)
    requires l > 0
    requires -l <= d * l <= l
    ensures -1 <= d <= 1
  {
    if d >= 0 {
      MulGrows(d, l);
    } else {
      MulGrows(-d, l);
      assert (-d) * l == -(d * l);
    }
  }

  /** Two integers nearest to `f / l` under the tie rule are equal. */
  lemma NearestUnique(f: int, l: int, r: int, s: int)
    requires l > 0
    requires Nearest(f, l, r) && Nearest(f, l, s)
    ensures r == s
  {
    assert (r - s) * l == r * l - s * l;
    SmallMultiple(r - s, l);
  }

  /** No other integer is that close to `f / l` with that tie rule. */
  lemma RoundHalfEvenUnique(f: int, l: int, r: int)
    requires l > 0
    requires Nearest(f, l, r)
    ensures r == RoundHalfEven(f, l)
  {
    NearestUnique(f, l, r, RoundHalfEven(f, l));
  }

  /** `[x] * n`: `n` copies of `x`, none when `n` is not positive. */
  function Repeat(x: int, n: int): (s: seq<int>)
    ensures |s| == Count(n)
    ensures forall i :: 0 <= i < |s| ==> s[i] == x
  {
    if n <= 0 then [] else Repeat(x, n - 1) + [x]
  }

  /** `firms_per_label = [round(number_firms/number_labels)]*number_labels`:
      a `ZeroDivisionError` without labels, otherwise one entry per label (none
      for a negative count), each the share of firms rounded half to even. */
  function FirmsPerLabel(numberFirms: int, numberLabels: int): (r: Result<seq<int>>)
    ensures r.Err? <==> numberLabels == 0
    ensures r.Err? ==> r.error == DivisionByZero
    ensures r.Ok? ==> |r.value| == Count(numberLabels)
    ensures r.Ok? && numberLabels > 0 ==>
      forall k :: 0 <= k < |r.value| ==> Nearest(numberFirms, numberLabels, r.value[k])
  {
    if numberLabels == 0 then Err(DivisionByZero)
    else if numberLabels > 0 then Ok(Repeat(RoundHalfEven(numberFirms, numberLabels), numberLabels))
    else Ok(Repeat(RoundHalfEven(-numberFirms, -numberLabels), numberLabels))
  }

  /** `connect_vector`, or one firm per label when it is `None`. */
  function Capacities(connect: Option<seq<int>>, numberLabels: int): (cap: seq<int>)
    ensures connect.Some? ==> cap == connect.value
    ensures connect.None? ==> |cap| == Count(numberLabels) && forall j :: 0 <= j < |cap| ==> cap[j] == 1
  {
    match connect
    case None => Repeat(1, numberLabels)
    case Some(c) => c
  }

  /** `[rnd.randint(1,100000) for _ in range(count)]` after `rnd.seed(seed)`:
      `count` seeds, each in `1..100000`. */
  function Seeds(bc: BatchChance, seed: int, count: nat): (s: seq<int>)
    ensures |s| == count
    ensures forall i :: 0 <= i < count ==> 1 <= s[i] <= 100000
  {
    if count == 0 then [] else Seeds(bc, seed, count - 1) + [1 + bc.draw(seed, count - 1) % 100000]
  }

  /** The first `k` graphs of the loop of app.py:155-158, graph `i` made by
      `make` from `seeds[i]`, or the exception of the first call that raises. */
  function Runs(make: int -> Result<SupplyGraph>, seeds: seq<int>, k: nat): (r: Result<seq<SupplyGraph>>)
    requires k <= |seeds|
    ensures r.Ok? ==> |r.value| == k
  {
    if k == 0 then Ok([])
    else
      match Runs(make, seeds, k - 1)
      case Err(e) => Err(e)
      case Ok(gs) =>
        match make(seeds[k - 1])
        case Err(e) => Err(e)
        case Ok(og) => Ok(gs + [og])
  }

  /** Graph `i` is the one made from seed `seeds[i]`, and the loop gets
      through `k` graphs exactly when none of those calls raises. */
  lemma {:induction false} RunsAt(make: int -> Result<SupplyGraph>, seeds: seq<int>, k: nat)
    requires k <= |seeds|
    ensures Runs(make, seeds, k).Ok? <==> forall i :: 0 <= i < k ==> make(seeds[i]).Ok?
    ensures Runs(make, seeds, k).Ok? ==> forall i :: 0 <= i < k ==> make(seeds[i]) == Ok(Runs(make, seeds, k).value[i])
  {
    if k > 0 {
      RunsAt(make, seeds, k - 1);
    }
  }

  /** Once a call has raised, the loop never produces graphs again: the
      exception is the outcome. */
  lemma {:induction false} RunsErrorStays(make: int -> Result<SupplyGraph>, seeds: seq<int>, k: nat, k': nat)
    requires k <= k' <= |seeds|
    requires Runs(make, seeds, k).Err?
    ensures Runs(make, seeds, k') == Runs(make, seeds, k)
    decreases k' - k
  {
    if k < k' {
      RunsErrorStays(make, seeds, k + 1, k');
    }
  }

  /** `create_graph` with the shared parameters, as a function of the seed. */
  function Maker(fpl: seq<int>, numberProducts: int, cap: seq<int>, bc: BatchChance): int -> Result<SupplyGraph>
  {
    s => Generate(fpl, numberProducts, cap, bc.stream(s))
  }

  /** `create_multiple_graphs(number_graphs, number_firms, number_products,
      number_labels, radius, connect_vector, seed)`. */
  function Batch(numberGraphs: int, numberFirms: int, numberProducts: int, numberLabels: int,
                 connect: Option<seq<int>>, seed: int, bc: BatchChance): Result<GraphBatch>
  {
    match FirmsPerLabel(numberFirms, numberLabels)
    case Err(e) => Err(e)
    case Ok(fpl) =>
      var cap := Capacities(connect, numberLabels);
      var seeds := Seeds(bc, seed, Count(numberGraphs));
      match Runs(Maker(fpl, numberProducts, cap, bc), seeds, |seeds|)
      case Err(e) => Err(e)
      case Ok(gs) => Ok(GraphBatch(fpl, numberProducts, seed, gs))
  }

  /** A batch holds `number_graphs` graphs (none for a negative count), graph
      `i` being `create_graph` with the `i`-th drawn seed, and records the
      rounded firms per label it used. */
  lemma BatchShape(numberGraphs: int, numberFirms: int, numberProducts: int, numberLabels: int,
                   connect: Option<seq<int>>, seed: int, bc: BatchChance)
    requires Batch(numberGraphs, numberFirms, numberProducts, numberLabels, connect, seed, bc).Ok?
    ensures var b := Batch(numberGraphs, numberFirms, numberProducts, numberLabels, connect, seed, bc).value;
      var seeds := Seeds(bc, seed, Count(numberGraphs));
      && FirmsPerLabel(numberFirms, numberLabels) == Ok(b.firmsPerLabel)
      && b.numberProducts == numberProducts && b.seed == seed
      && |b.graphs| == Count(numberGraphs)
      && forall i :: 0 <= i < |b.graphs| ==>
           Generate(b.firmsPerLabel, numberProducts, Capacities(connect, numberLabels), bc.stream(seeds[i])) == Ok(b.graphs[i])
  {
    var fpl := FirmsPerLabel(numberFirms, numberLabels).value;
    var seeds := Seeds(bc, seed, Count(numberGraphs));
    RunsAt(Maker(fpl, numberProducts, Capacities(connect, numberLabels), bc), seeds, |seeds|);
  }

  /** No `create_graph` call of the batch raises. */
  ghost predicate AllGenerate(fpl: seq<int>, numberProducts: int, cap: seq<int>, bc: BatchChance, seeds: seq<int>)
  {
    forall i :: 0 <= i < |seeds| ==> Generate(fpl, numberProducts, cap, bc.stream(seeds[i])).Ok?
  }

  /** The loop over the seeds gets through all of them exactly when no
      `create_graph` call raises. */
  lemma RunsGenerate(fpl: seq<int>, numberProducts: int, cap: seq<int>, bc: BatchChance, seeds: seq<int>)
    ensures Runs(Maker(fpl, numberProducts, cap, bc), seeds, |seeds|).Ok? <==> AllGenerate(fpl, numberProducts, cap, bc, seeds)
  {
    var make := Maker(fpl, numberProducts, cap, bc);
    RunsAt(make, seeds, |seeds|);
    if !Runs(make, seeds, |seeds|).Ok? {
      var i :| 0 <= i < |seeds| && !make(seeds[i]).Ok?;
      assert !Generate(fpl, numberProducts, cap, bc.stream(seeds[i])).Ok?;
    } else {
      forall i | 0 <= i < |seeds| ensures Generate(fpl, numberProducts, cap, bc.stream(seeds[i])).Ok? {
        assert make(seeds[i]).Ok?;
      }
    }
  }

  /** Without labels the batch raises `ZeroDivisionError`; otherwise it
      succeeds exactly when none of its `create_graph` calls raises. */
  lemma BatchRaises(numberGraphs: int, numberFirms: int, numberProducts: int, numberLabels: int,
                    connect: Option<seq<int>>, seed: int, bc: BatchChance)
    ensures numberLabels == 0 ==>
      Batch(numberGraphs, numberFirms, numberProducts, numberLabels, connect, seed, bc) == Err(DivisionByZero)
    ensures numberLabels != 0 ==>
      (Batch(numberGraphs, numberFirms, numberProducts, numberLabels, connect, seed, bc).Ok? <==>
       AllGenerate(FirmsPerLabel(numberFirms, numberLabels).value, numberProducts, Capacities(connect, numberLabels),
                   bc, Seeds(bc, seed, Count(numberGraphs))))
  {
    if numberLabels != 0 {
      var fpl := FirmsPerLabel(numberFirms, numberLabels).value;
      var seeds := Seeds(bc, seed, Count(numberGraphs));
      RunsGenerate(fpl, numberProducts, Capacities(connect, numberLabels), bc, seeds);
    }
  }

  /** With the default `connect_vector` (one firm per label), a batch with
      labels never raises, whatever the seeds. */
  lemma DefaultCapacitiesNeverRaise(numberGraphs: int, numberFirms: int, numberProducts: int, numberLabels: int,
                                    seed: int, bc: BatchChance)
    requires numberLabels != 0
    ensures Batch(numberGraphs, numberFirms, numberProducts, numberLabels, None, seed, bc).Ok?
  {
    var fpl := FirmsPerLabel(numberFirms, numberLabels).value;
    var cap := Capacities(None, numberLabels);
    var seeds := Seeds(bc, seed, Count(numberGraphs));
    forall i | 0 <= i < |seeds| ensures Generate(fpl, numberProducts, cap, bc.stream(seeds[i])).Ok? {
      GenerateSucceeds(fpl, numberProducts, cap, bc.stream(seeds[i]));
    }
    assert AllGenerate(fpl, numberProducts, cap, bc, seeds);
    BatchRaises(numberGraphs, numberFirms, numberProducts, numberLabels, None, seed, bc);
  }

  /** The loop of app.py:142-160. */
  method CreateMultipleGraphs(numberGraphs: int, numberFirms: int, numberProducts: int, numberLabels: int,
                              connect: Option<seq<int>>, seed: int, bc: BatchChance)
    returns (r: Result<GraphBatch>)
    ensures r == Batch(numberGraphs, numberFirms, numberProducts, numberLabels, connect, seed, bc)
  {
    var firmsPerLabel := FirmsPerLabel(numberFirms, numberLabels);
    if firmsPerLabel.Err? {
      return Err(firmsPerLabel.error);
    }
    var fpl := firmsPerLabel.value;
    var cap := Capacities(connect, numberLabels);
    var seeds := Seeds(bc, seed, Count(numberGraphs));
    ghost var make := Maker(fpl, numberProducts, cap, bc);
    var graphs := [];
    for i := 0 to |seeds|
      invariant Runs(make, seeds, i) == Ok(graphs)
    {
      var og := CreateGraph(fpl, numberProducts, cap, bc.stream(seeds[i]));
      if og.Err? {
        r := Err(og.error);
        assert Runs(make, seeds, i + 1) == Err(og.error);
        RunsErrorStays(make, seeds, i + 1, |seeds|);
        return;
      }
      graphs := graphs + [og.value];
    }
    r := Ok(GraphBatch(fpl, numberProducts, seed, graphs));
  }
}
