/** The random stream of one graph, reduced to what the generator observes. */
module Sampling {
  import opened Graphs

  /** `near(a, f)`: firm `f` lies strictly within the radius of the product
      position drawn on attempt `a` (the firm positions, the product position
      and the Euclidean distance all come from the seeded stream).
      `below(a, k, t)`: the raw value behind the `t`-th `randbelow` draw that
      `rnd.sample` makes for label `k` on attempt `a`. */
  datatype Chance = Chance(near: (nat, int) -> bool, below: (nat, nat, nat) -> nat)

  /** `rnd.sample(pool, m)`: CPython's pool algorithm. Each step draws an index
      below the live pool size, takes that element, and moves the last live
      element into its place. */
  function Sample(pool: seq<int>, m: nat, ch: Chance, a: nat, k: nat, t: nat): (r: seq<int>)
    requires m <= |pool|
    ensures |r| == m
    ensures forall x :: x in r ==> x in pool
    ensures Distinct(pool) ==> Distinct(r)
    decreases m
  {
    if m == 0 then []
    else
      var n := |pool|;
      var j := ch.below(a, k, t) % n;
      var rest := pool[j := pool[n - 1]][..n - 1];
      assert forall x :: x in rest ==> x in pool;
      assert Distinct(pool) ==> Distinct(rest) && pool[j] !in rest by {
        if Distinct(pool) {
          forall x | x in rest ensures x != pool[j] {
            var i :| 0 <= i < n - 1 && rest[i] == x;
          }
        }
      }
      [pool[j]] + Sample(rest, m - 1, ch, a, k, t + 1)
  }
}
