/** The log-bucketed histogram: its buckets tile the line, and a quantile is
    within 1/128 of the true order statistic. */
module Histograms {
  import opened Bits

  const SUB: nat := 64
  const MAX_EXP: nat := 40
  const BUCKETS: nat := 2304
  /** Values from here on fall in the last bucket: 2^41, one octave above the
      2^40 the source's comment names. */
  const CLAMP: nat := 0x200_0000_0000

  /** bits.Len64 */
  function Len(v: nat): nat {
    if v == 0 then 0 else 1 + Len(v / 2)
  }

  function Index(v: nat): nat {
    if v < SUB then v
    else
      var e := Len(v) as int - 1;
      if e > MAX_EXP || e < 6 then BUCKETS - 1
      else (e - 5) * 64 + v / Pow2(e - 6) % 64
  }

  /** The half-open range of bucket i. */
  function Bounds(i: nat): (nat, nat) {
    if i < SUB then (i, i + 1)
    else
      var w := Pow2(i / 64 - 1);
      var lo := (64 + i % 64) * w;
      (lo, lo + w)
  }

  function Lo(i: nat): nat { Bounds(i).0 }
  function Hi(i: nat): nat { Bounds(i).1 }

  // ---------- powers and lengths ----------

  lemma {:induction false} LenBrackets(v: nat)
    requires v > 0
    ensures Len(v) > 0 && Pow2(Len(v) - 1) <= v < Pow2(Len(v))
  {
    if v > 1 {
      LenBrackets(v / 2);
    }
  }

  /** The bracket decides the length. */
  lemma LenIs(v: nat, k: nat)
    requires Pow2(k) <= v < Pow2(k + 1)
    ensures Len(v) == k + 1
  {
    LenBrackets(v);
    if Len(v) - 1 < k {
      Pow2Grows(Len(v) - 1, k);
      if Len(v) < k {
        Pow2Grows(Len(v), k);
      }
    } else if Len(v) - 1 > k {
      if k + 1 < Len(v) - 1 {
        Pow2Grows(k + 1, Len(v) - 1);
      }
    }
  }

  lemma ClampIsPow41()
    ensures Pow2(41) == CLAMP && Pow2(6) == 64
  {
    Pow2Adds(20, 21);
    Pow2Adds(10, 10);
    Pow2Adds(10, 11);
    assert Pow2(6) == 64;
    assert Pow2(10) == 1024;
    assert Pow2(11) == 2048;
  }

  lemma {:induction false} LenGrows(v: nat, k: nat)
    ensures v < Pow2(k) <==> Len(v) <= k
  {
    if v > 0 {
      LenBrackets(v);
      if Len(v) < k {
        Pow2Grows(Len(v), k);
      } else if k < Len(v) - 1 {
        Pow2Grows(k, Len(v) - 1);
      }
    }
  }

  // ---------- buckets ----------

  lemma Below(q: int, w: nat, a: int)
    requires w > 0 && q < a
    ensures (q + 1) * w <= a * w
  {
  }

  lemma DivBetween(v: nat, w: nat, a: nat, b: nat)
    requires w > 0 && a * w <= v < b * w
    ensures a <= v / w < b
  {
    var q := v / w;
    assert q * w <= v < (q + 1) * w;
    if q < a {
      Below(q, w, a);
    }
    if q >= b {
      Below(b - 1, w, q);
      Below(b - 1, w, q + 1);
    }
  }

  /** A value of exponent e, cut into 64ths of its octave. */
  lemma Cut(v: nat, e: nat)
    requires 6 <= e && Pow2(e) <= v < Pow2(e + 1)
    ensures 64 <= v / Pow2(e - 6) < 128
  {
    Pow2Adds(6, e - 6);
    Pow2Adds(7, e - 6);
    assert Pow2(6) == 64 && Pow2(7) == 128;
    DivBetween(v, Pow2(e - 6), 64, 128);
  }

  lemma Slot(e: nat, q: nat)
    requires e >= 6 && 64 <= q < 128
    ensures var i := (e - 5) * 64 + q % 64; i / 64 == e - 5 && i % 64 == q - 64 && i >= SUB
  {
  }

  lemma IndexOfLarge(v: nat)
    requires Pow2(6) <= v < Pow2(41)
    ensures var e := Len(v) - 1;
            6 <= e <= 40 && Index(v) == (e - 5) * 64 + v / Pow2(e - 6) % 64 && Pow2(e) <= v < Pow2(e + 1)
  {
    LenGrows(v, 6);
    LenGrows(v, 41);
    LenBrackets(v);
    assert Pow2(6) == 64;
  }

  /** Every value below the clamp lies in its bucket. */
  lemma ValueInItsBucket(v: nat, i: nat)
    requires v < Pow2(41) && i == Index(v)
    ensures i < BUCKETS && Lo(i) <= v < Hi(i)
  {
    if v >= SUB {
      LargeValueFits(v, i, Len(v) as int - 1);
    }
  }

  lemma LargeValueFits(v: nat, i: nat, e: int)
    requires SUB <= v < Pow2(41) && i == Index(v) && e == Len(v) as int - 1
    ensures i < BUCKETS && Lo(i) <= v < Hi(i)
  {
    assert Pow2(6) == SUB;
    IndexOfLarge(v);
    Cut(v, e);
    LargeInItsBucket(v, e, v / Pow2(e - 6), i);
  }

  lemma LargeInItsBucket(v: nat, e: nat, q: nat, i: nat)
    requires 6 <= e <= 40 && q == v / Pow2(e - 6) && 64 <= q < 128 && i == (e - 5) * 64 + q % 64
    ensures i < BUCKETS && Lo(i) <= v < Hi(i)
  {
    Slot(e, q);
    InSlot(v, Pow2(e - 6));
  }

  lemma InSlot(v: nat, w: nat)
    requires w > 0
    ensures v / w * w <= v < v / w * w + w
  {
  }

  lemma SlotBack(i: nat)
    requires i >= SUB
    ensures (i / 64) * 64 + (64 + i % 64) % 64 == i
  {
  }

  /** A value is indexed by whichever bucket it lies in: Index inverts Bounds. */
  lemma BucketOfItsValues(i: nat, v: nat)
    requires i < BUCKETS && Lo(i) <= v < Hi(i)
    ensures Index(v) == i && v < Pow2(41)
  {
    assert Pow2(6) == 64;
    LenGrows(v, 41);
    LenGrows(v, 6);
    if i >= SUB {
      var e := i / 64 + 5;
      BucketInOctave(i);
      SlotOfValue(i, v);
      LenIs(v, e);
      IndexOfLarge(v);
      SlotBack(i);
    }
  }

  lemma Distribute(a: nat, w: nat)
    ensures (a + 1) * w == a * w + w
  {
  }

  /** Bucket i lies within one octave, at one 64th of it. */
  lemma BucketInOctave(i: nat)
    requires SUB <= i
    ensures var e := i / 64 + 5; Pow2(e) <= Lo(i) && Hi(i) <= Pow2(e + 1) && Hi(i) == (64 + i % 64 + 1) * Pow2(e - 6)
  {
    var e, q := i / 64 + 5, 64 + i % 64;
    var w := Pow2(e - 6);
    Pow2Adds(6, e - 6);
    Pow2Adds(7, e - 6);
    assert Pow2(6) == 64 && Pow2(7) == 128;
    Scale(64, q, w);
    Scale(q + 1, 128, w);
    Distribute(q, w);
  }

  lemma SlotOfValue(i: nat, v: nat)
    requires SUB <= i && Lo(i) <= v < Hi(i)
    ensures v / Pow2(i / 64 - 1) == 64 + i % 64
  {
    Distribute(64 + i % 64, Pow2(i / 64 - 1));
    DivBetween(v, Pow2(i / 64 - 1), 64 + i % 64, 64 + i % 64 + 1);
  }

  lemma Scale(a: nat, b: nat, w: nat)
    requires a <= b
    ensures a * w <= b * w
  {
  }

  /** Buckets tile [0, 2^41): each begins where the one before it ends. */
  lemma BucketsTile(i: nat)
    requires i + 1 < BUCKETS
    ensures Hi(i) == Lo(i + 1) && Lo(i) < Hi(i)
  {
    if i >= SUB {
      if i % 64 == 63 {
        assert (i + 1) / 64 == i / 64 + 1 && (i + 1) % 64 == 0;
        assert Pow2(i / 64) == 2 * Pow2(i / 64 - 1);
      } else {
        assert (i + 1) / 64 == i / 64 && (i + 1) % 64 == i % 64 + 1;
        BucketInOctave(i);
      }
    }
  }

  lemma FirstAndLast()
    ensures Lo(0) == 0 && Hi(BUCKETS - 1) == Pow2(41) == CLAMP && Lo(BUCKETS - 1) == 127 * Pow2(34)
  {
    ClampIsPow41();
    BucketInOctave(BUCKETS - 1);
    Pow2Adds(7, 34);
    assert Pow2(7) == 128;
  }

  /** A bucket is a single value, or no wider than 1/64 of its least value. */
  lemma BucketsAreNarrow(i: nat)
    requires i < BUCKETS
    ensures Hi(i) - Lo(i) == 1 || 64 * (Hi(i) - Lo(i)) <= Lo(i)
  {
    if i >= SUB {
      Scale(64, 64 + i % 64, Pow2(i / 64 - 1));
    }
  }

  lemma {:induction false} BucketsAscend(i: nat, j: nat)
    requires i < j < BUCKETS
    ensures Hi(i) <= Lo(j)
  {
    BucketsTile(i);
    if i + 1 < j {
      BucketsAscend(i, j - 1);
      BucketsTile(j - 1);
    }
  }

  lemma ClampedIndex(v: nat)
    requires v >= Pow2(41)
    ensures Index(v) == BUCKETS - 1
  {
    LenGrows(v, 41);
    LenGrows(v, 6);
    Pow2Grows(6, 41);
    assert Pow2(6) == 64;
  }

  lemma IndexIsMonotone(a: nat, b: nat)
    requires a <= b
    ensures Index(a) <= Index(b) < BUCKETS
  {
    if b >= Pow2(41) {
      ClampedIndex(b);
      if a < Pow2(41) {
        ValueInItsBucket(a, Index(a));
      } else {
        ClampedIndex(a);
      }
    } else {
      ValueInItsBucket(a, Index(a));
      ValueInItsBucket(b, Index(b));
      if Index(b) < Index(a) {
        BucketsAscend(Index(b), Index(a));
      }
    }
  }

  // ---------- recorded values ----------

  /** How many of the values satisfy p. */
  function Tally(vs: seq<nat>, p: nat -> bool): nat {
    if vs == [] then 0 else Tally(vs[..|vs| - 1], p) + if p(vs[|vs| - 1]) then 1 else 0
  }

  lemma {:induction false} TallyAdds(xs: seq<nat>, ys: seq<nat>, p: nat -> bool)
    ensures Tally(xs + ys, p) == Tally(xs, p) + Tally(ys, p)
  {
    if ys == [] {
      assert xs + ys == xs;
    } else {
      TallyAdds(xs, ys[..|ys| - 1], p);
      assert (xs + ys)[..|xs + ys| - 1] == xs + ys[..|ys| - 1];
    }
  }

  lemma {:induction false} TallyImplies(vs: seq<nat>, p: nat -> bool, q: nat -> bool)
    requires forall v :: v in vs && p(v) ==> q(v)
    ensures Tally(vs, p) <= Tally(vs, q)
  {
    if vs != [] {
      TallyImplies(vs[..|vs| - 1], p, q);
    }
  }

  lemma {:induction false} TallySplits(vs: seq<nat>, p: nat -> bool, q: nat -> bool, r: nat -> bool)
    requires forall v :: r(v) <==> p(v) || q(v)
    requires forall v :: !(p(v) && q(v))
    ensures Tally(vs, r) == Tally(vs, p) + Tally(vs, q)
  {
    if vs != [] {
      TallySplits(vs[..|vs| - 1], p, q, r);
    }
  }

  lemma {:induction false} TallyAll(vs: seq<nat>, p: nat -> bool)
    requires forall v :: v in vs ==> p(v)
    ensures Tally(vs, p) == |vs|
  {
    if vs != [] {
      TallyAll(vs[..|vs| - 1], p);
    }
  }

  lemma {:induction false} TallyNone(vs: seq<nat>, p: nat -> bool)
    requires forall v :: !p(v)
    ensures Tally(vs, p) == 0
  {
    if vs != [] {
      TallyNone(vs[..|vs| - 1], p);
    }
  }

  function InBucket(i: nat): nat -> bool { (v: nat) => Index(v) == i }
  function Before(i: nat): nat -> bool { (v: nat) => Index(v) < i }
  function Less(x: nat): nat -> bool { (v: nat) => v < x }
  function AtMost(x: nat): nat -> bool { (v: nat) => v <= x }

  lemma BeforeNext(vs: seq<nat>, i: nat)
    ensures Tally(vs, Before(i + 1)) == Tally(vs, Before(i)) + Tally(vs, InBucket(i))
  {
    TallySplits(vs, Before(i), InBucket(i), Before(i + 1));
  }

  /** x is the k-th smallest of the values: fewer than k lie below it and at
      least k do not lie above it. */
  predicate KthSmallest(vs: seq<nat>, k: nat, x: nat) {
    x in vs && Tally(vs, Less(x)) < k <= Tally(vs, AtMost(x))
  }

  /** The bucket a quantile scan stops at holds the order statistic. */
  lemma ScanFindsTheOrderStatistic(vs: seq<nat>, k: nat, x: nat, i: nat)
    requires KthSmallest(vs, k, x)
    requires Tally(vs, Before(i)) < k <= Tally(vs, Before(i + 1))
    ensures Index(x) == i
  {
    if Index(x) < i {
      forall v | v in vs && AtMost(x)(v)
        ensures Before(i)(v)
      {
        IndexIsMonotone(v, x);
      }
      TallyImplies(vs, AtMost(x), Before(i));
    }
    if Index(x) > i {
      forall v | v in vs && Before(i + 1)(v)
        ensures Less(x)(v)
      {
        if v >= x {
          IndexIsMonotone(x, v);
        }
      }
      TallyImplies(vs, Before(i + 1), Less(x));
    }
  }

  // ---------- the histogram ----------

  function Max(a: nat, b: nat): nat {
    if a > b then a else b
  }

  function Largest(vs: seq<nat>): nat {
    if vs == [] then 0 else Max(Largest(vs[..|vs| - 1]), vs[|vs| - 1])
  }

  lemma {:induction false} LargestIsAbove(vs: seq<nat>, x: nat)
    requires x in vs
    ensures x <= Largest(vs)
  {
    if x != vs[|vs| - 1] {
      LargestIsAbove(vs[..|vs| - 1], x);
    }
  }

  lemma {:induction false} LargestOfBoth(xs: seq<nat>, ys: seq<nat>)
    ensures Largest(xs + ys) == Max(Largest(xs), Largest(ys))
  {
    if ys == [] {
      assert xs + ys == xs;
    } else {
      LargestOfBoth(xs, ys[..|ys| - 1]);
      assert (xs + ys)[..|xs + ys| - 1] == xs + ys[..|ys| - 1];
    }
  }

  function Sum(vs: seq<nat>): nat {
    if vs == [] then 0 else Sum(vs[..|vs| - 1]) + vs[|vs| - 1]
  }

  lemma {:induction false} SumOfBoth(xs: seq<nat>, ys: seq<nat>)
    ensures Sum(xs + ys) == Sum(xs) + Sum(ys)
  {
    if ys == [] {
      assert xs + ys == xs;
    } else {
      SumOfBoth(xs, ys[..|ys| - 1]);
      assert (xs + ys)[..|xs + ys| - 1] == xs + ys[..|ys| - 1];
    }
  }

  /** ceil(x) */
  function Ceil(x: real): int {
    -(-x).Floor
  }

  function Rank(q: real, n: nat): nat
    requires n > 0
  {
    var r := Ceil(q * n as real);
    if r < 1 then 1 else if r > n then n else r
  }

  /** The value reported for bucket i: its only value, or its midpoint but no
      more than the largest value recorded. */
  function Report(i: nat, max: nat): real {
    var lo, hi := Lo(i) as real, Hi(i) as real;
    if Hi(i) - Lo(i) == 1 then lo
    else
      var mid := (lo + hi - 1.0) / 2.0;
      if mid < max as real then mid else max as real
  }

  datatype Number = NaN | Real(r: real)

  class Hist {
    const counts: array<nat>
    var n: nat
    var sum: nat
    var max: nat
    ghost var values: seq<nat>  // everything recorded, in order

    ghost predicate Valid()
      reads this, counts
    {
      && counts.Length == BUCKETS
      && (forall i :: 0 <= i < BUCKETS ==> counts[i] == Tally(values, InBucket(i)))
      && n == |values| && sum == Sum(values) && max == Largest(values)
    }

    constructor ()
      ensures Valid() && values == [] && fresh(counts)
    {
      counts := new nat[BUCKETS](_ => 0);
      n, sum, max, values := 0, 0, 0, [];
    }

    /** Adds one value; negatives count as 0. */
    method Record(ns: int)
      requires Valid()
      modifies this, counts
      ensures Valid() && values == old(values) + [if ns > 0 then ns else 0]
    {
      var v: nat := if ns > 0 then ns else 0;
      IndexIsMonotone(v, v);
      forall i | 0 <= i < BUCKETS
        ensures Tally(values + [v], InBucket(i)) == counts[i] + if i == Index(v) then 1 else 0
      {
        assert (values + [v])[..|values|] == values;
      }
      counts[Index(v)] := counts[Index(v)] + 1;
      assert (values + [v])[..|values|] == values;
      n, sum, values := n + 1, sum + v, values + [v];
      if v > max {
        max := v;
      }
    }

    /** Adds o's contents, as if its values had been recorded here. */
    method Merge(o: Hist)
      requires Valid() && o.Valid() && o != this && o.counts != counts
      modifies this, counts
      ensures Valid() && values == old(values) + o.values
    {
      for i := 0 to BUCKETS
        invariant n == old(n) && sum == old(sum) && max == old(max) && values == old(values)
        invariant forall j :: 0 <= j < i ==> counts[j] == old(counts[j]) + o.counts[j]
        invariant forall j :: i <= j < BUCKETS ==> counts[j] == old(counts[j])
      {
        counts[i] := counts[i] + o.counts[i];
      }
      forall i | 0 <= i < BUCKETS
        ensures counts[i] == Tally(values + o.values, InBucket(i))
      {
        TallyAdds(values, o.values, InBucket(i));
      }
      SumOfBoth(values, o.values);
      LargestOfBoth(values, o.values);
      n, sum, values := n + o.n, sum + o.sum, values + o.values;
      max := if max > o.max then max else o.max;
    }

    /** NaN when empty; else the report of the bucket that holds the rank-th
        smallest value. */
    method Quantile(q: real) returns (r: Number, ghost i: nat)
      requires Valid()
      ensures r == NaN <==> n == 0
      ensures n > 0 ==> i < BUCKETS && r == Real(Report(i, Largest(values)))
      ensures n > 0 ==> Tally(values, Before(i)) < Rank(q, n) <= Tally(values, Before(i + 1))
    {
      if n == 0 {
        return NaN, 0;
      }
      var rank := Rank(q, n);
      var seen := 0;
      TallyNone(values, Before(0));
      for j := 0 to BUCKETS
        invariant seen == Tally(values, Before(j)) < rank
      {
        BeforeNext(values, j);
        seen := seen + counts[j];
        if seen >= rank {
          i := j;
          var lo, hi := Bounds(j).0, Bounds(j).1;
          if hi - lo == 1 {
            return Real(lo as real), j;
          }
          var mid := (lo as real + hi as real - 1.0) / 2.0;
          return Real(if mid < max as real then mid else max as real), j;
        }
      }
      forall v | v in values
        ensures Before(BUCKETS)(v)
      {
        IndexIsMonotone(v, v);
      }
      TallyAll(values, Before(BUCKETS));
      assert false;
    }
  }

  // ---------- the error bound ----------

  predicate Close(r: real, x: nat) {
    128.0 * (r - x as real) <= x as real && 128.0 * (x as real - r) <= x as real
  }

  /** Below the clamp every report is within 1/128 of every value its bucket holds. */
  lemma ReportIsClose(i: nat, max: nat, x: nat)
    requires x < Pow2(41) && Index(x) == i && x <= max
    ensures Close(Report(i, max), x)
  {
    ValueInItsBucket(x, Index(x));
    BucketsAreNarrow(i);
  }

  /** Past the clamp the report is the last bucket's midpoint. */
  lemma ClampedReport(max: nat, x: nat)
    requires Pow2(41) <= x <= max
    ensures 2.0 * Report(BUCKETS - 1, max) == (127 * Pow2(34) + Pow2(41) - 1) as real
    ensures Close(Report(BUCKETS - 1, max), x) <==> 127 * x <= 64 * (127 * Pow2(34) + Pow2(41) - 1)
  {
    FirstAndLast();
    Pow2Adds(7, 34);
    assert Pow2(7) == 128;
  }

  /** The quantile bound: what Quantile reports is within 1/128 of the true
      order statistic x exactly when x is below the clamp, or so little above
      it that the last bucket's midpoint still serves. */
  lemma QuantileIsClose(vs: seq<nat>, k: nat, x: nat, i: nat)
    requires KthSmallest(vs, k, x) && i < BUCKETS
    requires Tally(vs, Before(i)) < k <= Tally(vs, Before(i + 1))
    ensures Close(Report(i, Largest(vs)), x) <==> x < CLAMP || 127 * x <= 64 * (127 * Pow2(34) + CLAMP - 1)
  {
    ClampIsPow41();
    ScanFindsTheOrderStatistic(vs, k, x, i);
    LargestIsAbove(vs, x);
    if x < CLAMP {
      ReportIsClose(i, Largest(vs), x);
    } else {
      ClampedIndex(x);
      ClampedReport(Largest(vs), x);
    }
  }
}
