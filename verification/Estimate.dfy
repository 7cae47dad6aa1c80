/** Contrast estimates from cell means, and what they recover. */
module Estimates {
  import opened Bits
  import opened Designs
  import opened Aliases

  /** One trial in design cell c; None for a response that is NaN or infinite. */
  datatype Response = Invalid | Valid(y: real)
  datatype Obs = Obs(cell: nat, y: Response)

  function SumIn(data: seq<Obs>, c: nat): real {
    if data == [] then 0.0
    else
      var o := data[|data| - 1];
      SumIn(data[..|data| - 1], c) + if o.cell == c && o.y.Valid? then o.y.y else 0.0
  }

  function CountIn(data: seq<Obs>, c: nat): nat {
    if data == [] then 0
    else
      var o := data[|data| - 1];
      CountIn(data[..|data| - 1], c) + if o.cell == c && o.y.Valid? then 1 else 0
  }

  function MeanIn(data: seq<Obs>, c: nat): real {
    if CountIn(data, c) == 0 then 0.0 else SumIn(data, c) / CountIn(data, c) as real
  }

  /** A sign times a number. */
  function Signed(s: int, x: real): real {
    if s == 1 then x else -x
  }

  function Product(s: int, x: real): real {
    s as real * x
  }

  lemma SignedIsProduct(s: int, x: real)
    requires s == 1 || s == -1
    ensures Product(s, x) == Signed(s, x)
  {
  }

  /** The sum over the first m runs of w's sign times f. */
  function Project(d: Design, w: nat, f: nat -> real, m: nat): real {
    if m == 0 then 0.0 else Project(d, w, f, m - 1) + Signed(Sign(d, m - 1, w), f(m - 1))
  }

  /** Half the runs stand at each sign. */
  function Halved(p: real, runs: nat): real
    requires runs > 0
  {
    p * (2.0 / runs as real)
  }

  /** The contrast of word w: the mean at +1 less the mean at -1. */
  function Contrast(d: Design, w: nat, f: nat -> real): real {
    Halved(Project(d, w, f, Runs(d)), Runs(d))
  }

  function Means(data: seq<Obs>): nat -> real {
    (c: nat) => MeanIn(data, c)
  }

  datatype Fit = NoFit | Fitted(estimates: seq<real>)

  /** Fits every contrast, or nothing if a cell has no valid observation. */
  method Estimate(d: Design, order: seq<nat>, data: seq<Obs>) returns (r: Fit, ghost contrasts: seq<seq<nat>>)
    requires Uniform(d) && VisitsClasses(d, order)
    requires forall i :: 0 <= i < |data| ==> data[i].cell < Runs(d)
    ensures r.NoFit? <==> exists c: nat :: c < Runs(d) && CountIn(data, c) == 0
    ensures r.Fitted? ==> |r.estimates| == |contrasts| == if K(d) < 32 then Pow2(d.base) - 1 else 0
    ensures r.Fitted? && K(d) < 32 ==> forall c :: 0 < c < Pow2(d.base) ==> Class(d, c) in contrasts
    ensures r.Fitted? ==> forall i :: 0 <= i < |contrasts| ==>
              contrasts[i] != [] && r.estimates[i] == Contrast(d, contrasts[i][0], Means(data))
  {
    contrasts := [];
    var ok, mean := CellMeans(Runs(d), data);
    if !ok {
      return NoFit, [];
    }
    var classes := Contrasts(d, order);
    contrasts := classes;
    var ests := [];
    for i := 0 to |classes|
      invariant |ests| == i
      invariant forall c :: 0 <= c < Runs(d) ==> mean[c] == Means(data)(c)
      invariant forall j :: 0 <= j < i ==> classes[j] != [] && ests[j] == Contrast(d, classes[j][0], Means(data))
    {
      ClassesAreFull(d, classes[i]);
      var est := Fitting(d, classes[i][0], mean, Means(data));
      ests := ests + [est];
    }
    r := Fitted(ests);
  }

  method Fitting(d: Design, w: nat, mean: array<real>, ghost f: nat -> real) returns (est: real)
    requires mean.Length == Runs(d) && forall c :: 0 <= c < Runs(d) ==> mean[c] == f(c)
    ensures est == Contrast(d, w, f)
  {
    var nc := Runs(d);
    est := 0.0;
    for c := 0 to nc
      invariant est == Project(d, w, f, c)
    {
      SignedIsProduct(Sign(d, c, w), mean[c]);
      est := est + Product(Sign(d, c, w), mean[c]);
    }
    est := Halved(est, nc);
  }

  method CellMeans(nc: nat, data: seq<Obs>) returns (ok: bool, mean: array<real>)
    requires forall i :: 0 <= i < |data| ==> data[i].cell < nc
    ensures !ok <==> exists c: nat :: c < nc && CountIn(data, c) == 0
    ensures ok ==> mean.Length == nc && forall c :: 0 <= c < nc ==> mean[c] == MeanIn(data, c)
  {
    var sum, n := Sums(nc, data);
    mean := new real[nc](_ => 0.0);
    for c := 0 to nc
      invariant forall i :: 0 <= i < nc ==> sum[i] == SumIn(data, i) && n[i] == CountIn(data, i)
      invariant forall i :: 0 <= i < c ==> CountIn(data, i) > 0 && mean[i] == MeanIn(data, i)
    {
      if n[c] == 0 {
        return false, mean;
      }
      mean[c] := sum[c] / n[c] as real;
    }
    ok := true;
  }

  lemma ClassesAreFull(d: Design, ws: seq<nat>)
    requires Uniform(d) && K(d) < 32 && exists c :: 0 < c < Pow2(d.base) && ws == Class(d, c)
    ensures ws != []
  {
    var c :| 0 < c < Pow2(d.base) && ws == Class(d, c);
    ClassHolds(d, c);
    assert CountOf(d, c) == Pow2(|d.cols| - d.base);
  }

  /** Per-cell sums and counts of the valid observations. */
  method Sums(nc: nat, data: seq<Obs>) returns (sum: array<real>, n: array<nat>)
    requires forall i :: 0 <= i < |data| ==> data[i].cell < nc
    ensures fresh(sum) && fresh(n) && sum.Length == nc && n.Length == nc
    ensures forall c :: 0 <= c < nc ==> sum[c] == SumIn(data, c) && n[c] == CountIn(data, c)
  {
    sum := new real[nc](_ => 0.0);
    n := new nat[nc](_ => 0);
    for k := 0 to |data|
      invariant forall c :: 0 <= c < nc ==> sum[c] == SumIn(data[..k], c) && n[c] == CountIn(data[..k], c)
    {
      assert data[..k + 1][..k] == data[..k];
      var o := data[k];
      if o.y.Valid? {
        sum[o.cell] := sum[o.cell] + o.y.y;
        n[o.cell] := n[o.cell] + 1;
      }
    }
    assert data[..|data|] == data;
  }

  // ---------- recovery ----------

  /** Cell means made of word columns: run c's mean under coefficients beta of
      the words below n. */
  function Signal(d: Design, beta: nat -> real, n: nat): nat -> real {
    (c: nat) => SignalAt(d, beta, n, c)
  }

  function SignalAt(d: Design, beta: nat -> real, n: nat, c: nat): real {
    if n == 0 then 0.0 else SignalAt(d, beta, n - 1, c) + Signed(Sign(d, c, n - 1), beta(n - 1))
  }

  /** The coefficients of the words below n that share w's column. */
  function AliasedSum(d: Design, beta: nat -> real, w: nat, n: nat): real {
    if n == 0 then 0.0
    else AliasedSum(d, beta, w, n - 1) + if Column(d, n - 1) == Column(d, w) then beta(n - 1) else 0.0
  }

  lemma {:induction false} ProjectNothing(d: Design, beta: nat -> real, w: nat, m: nat)
    ensures Project(d, w, Signal(d, beta, 0), m) == 0.0
  {
    if m > 0 {
      ProjectNothing(d, beta, w, m - 1);
    }
  }

  /** What word v with coefficient b adds to w's projection. */
  function Share(d: Design, w: nat, v: nat, b: real, m: nat): real {
    if m == 0 then 0.0 else Share(d, w, v, b, m - 1) + Signed(Sign(d, m - 1, w), Signed(Sign(d, m - 1, v), b))
  }

  /** Agreements less disagreements among the first m, and b for each. */
  function Balance(agree: nat -> bool, m: nat): int {
    if m == 0 then 0 else Balance(agree, m - 1) + if agree(m - 1) then 1 else -1
  }

  function Spend(agree: nat -> bool, b: real, m: nat): real {
    if m == 0 then 0.0 else Spend(agree, b, m - 1) + if agree(m - 1) then b else -b
  }

  function Times(b: real, k: int): real { b * k as real }

  lemma {:induction false} SpendIsBalance(agree: nat -> bool, b: real, m: nat)
    ensures Spend(agree, b, m) == Times(b, Balance(agree, m))
  {
    if m == 0 {
      TimesNothing(b);
    } else {
      SpendIsBalance(agree, b, m - 1);
      OneTerm(b, Balance(agree, m - 1), Balance(agree, m), agree(m - 1));
    }
  }

  lemma TimesNothing(b: real)
    ensures Times(b, 0) == 0.0
  {
  }

  lemma OneTerm(b: real, k: int, k': int, same: bool)
    requires k' == k + if same then 1 else -1
    ensures Times(b, k') == Times(b, k) + if same then b else -b
  {
    assert k' as real == k as real + if same then 1.0 else -1.0;
  }

  function Agree(d: Design, w: nat, v: nat): nat -> bool {
    (r: nat) => Sign(d, r, w) == Sign(d, r, v)
  }

  lemma {:induction false} DotIsBalance(d: Design, w: nat, v: nat, m: nat)
    ensures Dot(d, w, v, m) == Balance(Agree(d, w, v), m)
  {
    if m > 0 {
      DotIsBalance(d, w, v, m - 1);
      DotStep(d, w, v, m - 1);
    }
  }

  lemma {:induction false} ShareIsSpend(d: Design, w: nat, v: nat, b: real, m: nat)
    ensures Share(d, w, v, b, m) == Spend(Agree(d, w, v), b, m)
  {
    if m > 0 {
      ShareIsSpend(d, w, v, b, m - 1);
    }
  }

  lemma ShareIsDot(d: Design, w: nat, v: nat, b: real, m: nat)
    ensures Share(d, w, v, b, m) == Times(b, Dot(d, w, v, m))
  {
    ShareIsSpend(d, w, v, b, m);
    SpendIsBalance(Agree(d, w, v), b, m);
    DotIsBalance(d, w, v, m);
  }

  /** A word shares all of its coefficient with its aliases, nothing with others. */
  lemma ShareOfWord(d: Design, w: nat, v: nat, b: real, m: nat)
    requires Sound(d) && m == Runs(d)
    ensures Share(d, w, v, b, m) == if Column(d, v) == Column(d, w) then Times(b, m) else 0.0
  {
    OrthogonalOrIdentical(d, w, v);
    ShareIsDot(d, w, v, b, m);
    TimesNothing(b);
  }

  lemma {:induction false} ProjectAdds(d: Design, beta: nat -> real, w: nat, n: nat, m: nat)
    requires n > 0
    ensures Project(d, w, Signal(d, beta, n), m)
         == Project(d, w, Signal(d, beta, n - 1), m) + Share(d, w, n - 1, beta(n - 1), m)
  {
    if m > 0 {
      ProjectAdds(d, beta, w, n, m - 1);
    }
  }

  lemma Spread(a: real, b: real, k: int)
    ensures Times(a + b, k) == Times(a, k) + Times(b, k)
  {
  }

  /** The projection keeps what w's aliases share with it. */
  lemma {:induction false} ProjectionsAreAliased(d: Design, beta: nat -> real, w: nat, n: nat, m: nat)
    requires Sound(d) && m == Runs(d)
    ensures Project(d, w, Signal(d, beta, n), m) == AliasedSum(d, Scaled(beta, m), w, n)
  {
    if n == 0 {
      ProjectNothing(d, beta, w, m);
    } else {
      ProjectionsAreAliased(d, beta, w, n - 1, m);
      ProjectAdds(d, beta, w, n, m);
      ShareOfWord(d, w, n - 1, beta(n - 1), m);
    }
  }

  function Scaled(beta: nat -> real, k: int): nat -> real {
    (v: nat) => Times(beta(v), k)
  }

  lemma {:induction false} AliasedSumScales(d: Design, beta: nat -> real, w: nat, n: nat, k: int)
    ensures AliasedSum(d, Scaled(beta, k), w, n) == Times(AliasedSum(d, beta, w, n), k)
  {
    if n > 0 {
      AliasedSumScales(d, beta, w, n - 1, k);
      Spread(AliasedSum(d, beta, w, n - 1), beta(n - 1), k);
    }
  }

  /** Effect recovery: if the cell means are any combination of word columns,
      each contrast is exactly twice the sum of the coefficients in its alias
      class. */
  lemma EffectsAreRecovered(d: Design, beta: nat -> real, w: nat, f: nat -> real)
    requires Sound(d)
    requires forall c: nat :: c < Runs(d) ==> f(c) == SignalAt(d, beta, Pow2(K(d)), c)
    ensures Contrast(d, w, f) == 2.0 * AliasedSum(d, beta, w, Pow2(K(d)))
  {
    RecoveredFrom(d, beta, w, f, Pow2(K(d)), Runs(d));
  }

  lemma RecoveredFrom(d: Design, beta: nat -> real, w: nat, f: nat -> real, n: nat, m: nat)
    requires Sound(d) && m == Runs(d)
    requires forall c: nat :: c < m ==> f(c) == SignalAt(d, beta, n, c)
    ensures Halved(Project(d, w, f, m), m) == 2.0 * AliasedSum(d, beta, w, n)
  {
    RunsProject(d, beta, w, n, m);
    SameProjection(d, w, f, Signal(d, beta, n), m);
    HalvedScale(Project(d, w, f, m), AliasedSum(d, beta, w, n), m);
  }

  lemma RunsProject(d: Design, beta: nat -> real, w: nat, n: nat, m: nat)
    requires Sound(d) && m == Runs(d)
    ensures Project(d, w, Signal(d, beta, n), m) == Times(AliasedSum(d, beta, w, n), m)
  {
    ProjectionsAreAliased(d, beta, w, n, m);
    AliasedSumScales(d, beta, w, n, m);
  }

  lemma HalvedScale(p: real, s: real, m: nat)
    requires m > 0 && p == Times(s, m)
    ensures Halved(p, m) == 2.0 * s
  {
    var x := m as real;
    assert s * x * (2.0 / x) == 2.0 * s;
  }

  lemma {:induction false} SameProjection(d: Design, w: nat, f: nat -> real, g: nat -> real, m: nat)
    requires forall c: nat :: c < m ==> f(c) == g(c)
    ensures Project(d, w, f, m) == Project(d, w, g, m)
  {
    if m > 0 {
      SameProjection(d, w, f, g, m - 1);
    }
  }
}
