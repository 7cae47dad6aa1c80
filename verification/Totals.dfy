/** Sums of an integer measure over a sequence, and how they react to updates. */
module Totals {

  function Total<T>(xs: seq<T>, f: T -> int): int {
    if xs == [] then 0 else f(xs[0]) + Total(xs[1..], f)
  }

  lemma {:induction false} TotalUpdate<T>(xs: seq<T>, i: nat, x: T, f: T -> int)
    requires i < |xs|
    ensures Total(xs[i := x], f) == Total(xs, f) - f(xs[i]) + f(x)
  {
    if i == 0 {
      assert xs[i := x][1..] == xs[1..];
    } else {
      assert xs[i := x][1..] == xs[1..][i - 1 := x];
      TotalUpdate(xs[1..], i - 1, x, f);
    }
  }

  lemma {:induction false} TotalSame<T>(xs: seq<T>, ys: seq<T>, f: T -> int)
    requires |xs| == |ys|
    requires forall i :: 0 <= i < |xs| ==> f(xs[i]) == f(ys[i])
    ensures Total(xs, f) == Total(ys, f)
  {
    if xs != [] {
      assert forall i :: 0 <= i < |xs[1..]| ==> xs[1..][i] == xs[i + 1] && ys[1..][i] == ys[i + 1];
      TotalSame(xs[1..], ys[1..], f);
    }
  }

  lemma {:induction false} TotalAtLeast<T>(xs: seq<T>, i: nat, f: T -> int)
    requires i < |xs|
    requires forall j :: 0 <= j < |xs| ==> f(xs[j]) >= 0
    ensures Total(xs, f) >= f(xs[i])
    ensures Total(xs, f) >= 0
  {
    TotalNonNegative(xs[1..], f);
    if i > 0 {
      TotalAtLeast(xs[1..], i - 1, f);
    }
  }

  lemma {:induction false} TotalNonNegative<T>(xs: seq<T>, f: T -> int)
    requires forall j :: 0 <= j < |xs| ==> f(xs[j]) >= 0
    ensures Total(xs, f) >= 0
  {
    if xs != [] {
      TotalNonNegative(xs[1..], f);
    }
  }

  lemma {:induction false} TotalWitness<T>(xs: seq<T>, f: T -> int)
    requires Total(xs, f) > 0
    ensures exists i :: 0 <= i < |xs| && f(xs[i]) > 0
  {
    if f(xs[0]) <= 0 {
      TotalWitness(xs[1..], f);
      var i :| 0 <= i < |xs[1..]| && f(xs[1..][i]) > 0;
      assert xs[i + 1] == xs[1..][i];
    }
  }

  lemma {:induction false} TotalMonotone<T>(xs: seq<T>, f: T -> int, g: T -> int)
    requires forall i :: 0 <= i < |xs| ==> f(xs[i]) <= g(xs[i])
    ensures Total(xs, f) <= Total(xs, g)
  {
    if xs != [] {
      TotalMonotone(xs[1..], f, g);
    }
  }

  lemma {:induction false} TotalZero<T>(xs: seq<T>, f: T -> int)
    requires forall i :: 0 <= i < |xs| ==> f(xs[i]) == 0
    ensures Total(xs, f) == 0
  {
    if xs != [] {
      TotalZero(xs[1..], f);
    }
  }
}
