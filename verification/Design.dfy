/** Two-level factorial designs: signs, columns, alias classes. */
module Designs {
  import opened Bits
  import opened Sorting

  /** Masks and words are 32 bits wide. */
  const WORDS: nat := 0x1_0000_0000

  /** 1<<i in such a word. */
  function OneBit(i: nat): (b: nat)
    ensures i < 32 ==> b == Pow2(i)
    ensures i >= 32 ==> b == 0
  {
    ShiftedBit(i);
    Pow2(i) % WORDS
  }

  lemma WordIsPow32()
    ensures Pow2(32) == WORDS
  {
    Pow2Adds(16, 16);
    Pow2Adds(8, 8);
    assert Pow2(8) == 256;
  }

  lemma ShiftedBit(i: nat)
    ensures Pow2(i) % WORDS == if i < 32 then Pow2(i) else 0
  {
    WordIsPow32();
    if i < 32 {
      Pow2Grows(i, 32);
    } else {
      Pow2Adds(i - 32, 32);
      NoRemainder(Pow2(i - 32));
    }
  }

  lemma NoRemainder(a: nat)
    ensures a * WORDS % WORDS == 0
  {
  }

  /** 2^base runs; factor f's column is the product of the base columns in
      its mask cols[f]. */
  datatype Design = Design(base: nat, cols: seq<nat>)

  function K(d: Design): nat { |d.cols| }
  function Runs(d: Design): nat { Pow2(d.base) }

  /** The exclusive or of the masks of w's factors below f. */
  function ColUpTo(cols: seq<nat>, w: nat, f: nat): nat
    requires f <= |cols|
  {
    if f == 0 then 0
    else if Bit(w, f - 1) then Xor(ColUpTo(cols, w, f - 1), cols[f - 1])
    else ColUpTo(cols, w, f - 1)
  }

  /** The base-column mask of word w. */
  function Column(d: Design, w: nat): nat {
    ColUpTo(d.cols, w, |d.cols|)
  }

  method Col(d: Design, w: nat) returns (c: nat)
    ensures c == Column(d, w)
  {
    c := 0;
    for f := 0 to |d.cols|
      invariant c == ColUpTo(d.cols, w, f)
    {
      if Bit(w, f) {
        c := Xor(c, d.cols[f]);
      }
    }
  }

  /** The sign of a column with mask c in run r. */
  function SignOf(c: nat, r: nat): int {
    if (Ones(c) - Ones(And(r, c))) % 2 == 0 then 1 else -1
  }

  function Sign(d: Design, r: nat, w: nat): int {
    SignOf(Column(d, w), r)
  }

  // ---------- construction ----------

  function Full(k: nat): Design {
    if k == 0 then Design(0, []) else Cross(Full(k - 1))
  }

  /** One new base factor, fully crossed with every run. */
  function Cross(d: Design): Design {
    Design(d.base + 1, d.cols + [OneBit(d.base)])
  }

  /** A factor generated from base columns. */
  function Generate(d: Design, c: nat): Design {
    Design(d.base, d.cols + [c])
  }

  method MakeFull(k: nat) returns (d: Design)
    ensures d == Full(k)
  {
    var cols := [];
    for f := 0 to k
      invariant Full(f) == Design(f, cols)
    {
      cols := cols + [OneBit(f)];
    }
    d := Design(k, cols);
  }

  /** Designs reached by Full, Fractional and Cross. */
  datatype Recipe = Nothing | Crossed(of: Recipe) | Generated(of: Recipe, c: nat)

  function Made(r: Recipe): (d: Design)
    ensures d.base <= |d.cols|
  {
    match r
    case Nothing => Design(0, [])
    case Crossed(q) => Cross(Made(q))
    case Generated(q, c) => Generate(Made(q), c)
  }

  /** Generators are words over base factors. */
  predicate Sensible(r: Recipe) {
    match r
    case Nothing => true
    case Crossed(q) => Sensible(q)
    case Generated(q, c) => Sensible(q) && c < Pow2(Made(q).base) && c < WORDS
  }

  predicate Sound(d: Design) {
    forall f :: 0 <= f < |d.cols| ==> d.cols[f] < Pow2(d.base)
  }

  // ---------- signs ----------

  /** Columns are linear: the column of a product of words is the product. */
  lemma {:induction false} ColumnsMultiply(cols: seq<nat>, v: nat, w: nat, f: nat)
    requires f <= |cols|
    ensures ColUpTo(cols, Xor(v, w), f) == Xor(ColUpTo(cols, v, f), ColUpTo(cols, w, f))
  {
    if f == 0 {
      assert Xor(0, 0) == 0;
    } else {
      ColumnsMultiply(cols, v, w, f - 1);
      BitOfXor(v, w, f - 1);
      var a, b, g := ColUpTo(cols, v, f - 1), ColUpTo(cols, w, f - 1), cols[f - 1];
      if Bit(v, f - 1) {
        ShiftOut(a, b, g);
      } else {
        XorAssociates(a, b, g);
      }
    }
  }

  /** (a ^ g) ^ b and (a ^ g) ^ (b ^ g) */
  lemma ShiftOut(a: nat, b: nat, g: nat)
    ensures Xor(Xor(a, g), b) == Xor(Xor(a, b), g)
    ensures Xor(Xor(a, g), Xor(b, g)) == Xor(a, b)
  {
    XorAssociates(a, g, b);
    XorCommutes(g, b);
    XorAssociates(a, b, g);
    XorAssociates(a, g, Xor(b, g));
    XorCommutes(b, g);
    XorAssociates(g, g, b);
    XorSelf(g);
    XorZero(b);
  }

  predicate Odd(x: nat) { x % 2 == 1 }
  function Plus(b: bool): int { if b then 1 else -1 }

  lemma SignByParity(c: nat, r: nat)
    ensures SignOf(c, r) == Plus(Odd(Ones(c)) == Odd(Ones(And(r, c))))
  {
  }

  lemma OddOfXor(a: nat, b: nat)
    ensures Odd(Ones(Xor(a, b))) <==> (Odd(Ones(a)) != Odd(Ones(b)))
  {
    XorParity(a, b);
    OddOfSum(Ones(a), Ones(b));
  }

  lemma OddOfSum(x: nat, y: nat)
    ensures Odd(x + y) <==> Odd(x) != Odd(y)
  {
  }

  lemma SignsOfParities(a: bool, b: bool, c: bool, d: bool)
    ensures Plus((a != b) == (c != d)) == Plus(a == c) * Plus(b == d)
  {
  }

  lemma SignsOfMasksMultiply(a: nat, b: nat, r: nat)
    ensures SignOf(Xor(a, b), r) == SignOf(a, r) * SignOf(b, r)
  {
    OddOfXor(a, b);
    AndOverXor(r, a, b);
    OddOfXor(And(r, a), And(r, b));
    SignByParity(a, r);
    SignByParity(b, r);
    SignByParity(Xor(a, b), r);
    SignsOfParities(Odd(Ones(a)), Odd(Ones(b)), Odd(Ones(And(r, a))), Odd(Ones(And(r, b))));
  }

  /** Sign is multiplicative over the product of words. */
  lemma SignsMultiply(d: Design, r: nat, v: nat, w: nat)
    ensures Sign(d, r, Xor(v, w)) == Sign(d, r, v) * Sign(d, r, w)
  {
    ColumnsMultiply(d.cols, v, w, |d.cols|);
    SignsOfMasksMultiply(Column(d, v), Column(d, w), r);
  }

  function SumSigns(c: nat, n: nat): int {
    if n == 0 then 0 else SumSigns(c, n - 1) + SignOf(c, n - 1)
  }

  lemma SignOfPair(c: nat, r: nat)
    ensures SignOf(c, 2 * r + 1) == SignOf(c / 2, r)
    ensures SignOf(c, 2 * r) == if c % 2 == 1 then -SignOf(c / 2, r) else SignOf(c / 2, r)
  {
    OnesStep(c);
    AndStep(2 * r, c);
    AndStep(2 * r + 1, c);
    OnesStep(And(2 * r, c));
    OnesStep(And(2 * r + 1, c));
  }

  lemma {:induction false} PairsCancel(c: nat, n: nat)
    ensures SumSigns(c, 2 * n) == if c % 2 == 1 then 0 else 2 * SumSigns(c / 2, n)
  {
    if n > 0 {
      PairsCancel(c, n - 1);
      SignOfPair(c, n - 1);
      assert SumSigns(c, 2 * n) == SumSigns(c, 2 * n - 2) + SignOf(c, 2 * n - 2) + SignOf(c, 2 * n - 1);
    }
  }

  /** A column sums to 0 over all runs unless its mask is 0. */
  lemma {:induction false} ColumnsBalance(c: nat, b: nat)
    requires c < Pow2(b)
    ensures SumSigns(c, Pow2(b)) == if c == 0 then Pow2(b) else 0
    decreases b
  {
    if b == 0 {
      assert SignOf(0, 0) == 1;
      assert SumSigns(0, 1) == SumSigns(0, 0) + SignOf(0, 0);
    } else {
      PairsCancel(c, Pow2(b - 1));
      ColumnsBalance(c / 2, b - 1);
    }
  }

  lemma {:induction false} ColumnsStayBelow(d: Design, w: nat, f: nat)
    requires Sound(d) && f <= |d.cols|
    ensures ColUpTo(d.cols, w, f) < Pow2(d.base)
  {
    if f > 0 {
      ColumnsStayBelow(d, w, f - 1);
      XorStaysBelow(ColUpTo(d.cols, w, f - 1), d.cols[f - 1], d.base);
    }
  }

  function Dot(d: Design, v: nat, w: nat, n: nat): int {
    if n == 0 then 0 else Dot(d, v, w, n - 1) + Sign(d, n - 1, v) * Sign(d, n - 1, w)
  }

  lemma DotStep(d: Design, v: nat, w: nat, n: nat)
    ensures Dot(d, v, w, n + 1) == Dot(d, v, w, n) + if Sign(d, n, v) == Sign(d, n, w) then 1 else -1
  {
    ProductOfSigns(Sign(d, n, v), Sign(d, n, w));
  }

  lemma ProductOfSigns(s: int, t: int)
    requires (s == 1 || s == -1) && (t == 1 || t == -1)
    ensures s * t == if s == t then 1 else -1
  {
  }

  lemma {:induction false} DotIsSum(d: Design, v: nat, w: nat, n: nat)
    ensures Dot(d, v, w, n) == SumSigns(Column(d, Xor(v, w)), n)
  {
    if n > 0 {
      DotIsSum(d, v, w, n - 1);
      SignsMultiply(d, n - 1, v, w);
    }
  }

  /** Any two words are orthogonal over the runs, or have the same column. */
  lemma OrthogonalOrIdentical(d: Design, v: nat, w: nat)
    requires Sound(d)
    ensures Dot(d, v, w, Runs(d)) == if Column(d, v) == Column(d, w) then Runs(d) else 0
    ensures Column(d, v) == Column(d, w) ==> forall r :: Sign(d, r, v) == Sign(d, r, w)
  {
    DotIsSum(d, v, w, Runs(d));
    ColumnsMultiply(d.cols, v, w, |d.cols|);
    ColumnsStayBelow(d, Xor(v, w), |d.cols|);
    ColumnsBalance(Column(d, Xor(v, w)), d.base);
    XorDiffers(Column(d, v), Column(d, w));
  }

  // ---------- counting ----------

  /** Words below n whose column has mask c. */
  function CountTo(cols: seq<nat>, c: nat, n: nat): nat {
    if n == 0 then 0 else CountTo(cols, c, n - 1) + if ColUpTo(cols, n - 1, |cols|) == c then 1 else 0
  }

  /** All words with column c, the empty word included. */
  function CountOf(d: Design, c: nat): nat {
    CountTo(d.cols, c, Pow2(|d.cols|))
  }

  lemma {:induction false} SameBitsSameColumn(cols: seq<nat>, cols': seq<nat>, v: nat, w: nat, f: nat)
    requires f <= |cols| && f <= |cols'|
    requires forall i :: 0 <= i < f ==> Bit(v, i) == Bit(w, i) && cols[i] == cols'[i]
    ensures ColUpTo(cols, v, f) == ColUpTo(cols', w, f)
  {
    if f > 0 {
      SameBitsSameColumn(cols, cols', v, w, f - 1);
    }
  }

  /** The column of a word over one more factor g. */
  lemma OneMoreFactor(cols: seq<nat>, g: nat, v: nat)
    requires v < Pow2(|cols|)
    ensures var m := |cols|; var more := cols + [g];
            ColUpTo(more, v, m + 1) == ColUpTo(cols, v, m)
            && ColUpTo(more, v + Pow2(m), m + 1) == Xor(ColUpTo(cols, v, m), g)
  {
    var m, more := |cols|, cols + [g];
    forall i | 0 <= i <= m
      ensures Bit(v + Pow2(m), i) <==> (i == m || Bit(v, i))
    {
      BitsBelowTop(v, m, i);
    }
    BitsBelowTop(v, m, m);
    SameBitsSameColumn(cols, more, v, v, m);
    SameBitsSameColumn(cols, more, v, v + Pow2(m), m);
  }

  lemma {:induction false} LowHalf(cols: seq<nat>, g: nat, c: nat, n: nat)
    requires n <= Pow2(|cols|)
    ensures CountTo(cols + [g], c, n) == CountTo(cols, c, n)
  {
    if n > 0 {
      LowHalf(cols, g, c, n - 1);
      OneMoreFactor(cols, g, n - 1);
    }
  }

  lemma {:induction false} HighHalf(cols: seq<nat>, g: nat, c: nat, n: nat)
    requires n <= Pow2(|cols|)
    ensures CountTo(cols + [g], c, Pow2(|cols|) + n) ==
            CountTo(cols + [g], c, Pow2(|cols|)) + CountTo(cols, Xor(c, g), n)
  {
    if n > 0 {
      HighHalf(cols, g, c, n - 1);
      OneMoreFactor(cols, g, n - 1);
      var x := ColUpTo(cols, n - 1, |cols|);
      XorUndoes(x, g);
      XorUndoes(c, g);
    }
  }

  /** One more factor g: words with and without it. */
  lemma FactorSplitsCount(d: Design, e: Design, g: nat, c: nat)
    requires e.cols == d.cols + [g]
    ensures CountOf(e, c) == CountOf(d, c) + CountOf(d, Xor(c, g))
  {
    LowHalf(d.cols, g, c, Pow2(|d.cols|));
    HighHalf(d.cols, g, c, Pow2(|d.cols|));
    Doubled(e.cols, c, Pow2(|d.cols|));
  }

  lemma Doubled(cols: seq<nat>, c: nat, n: nat)
    requires Pow2(|cols|) == n + n
    ensures CountTo(cols, c, Pow2(|cols|)) == CountTo(cols, c, n + n)
  {
  }

  lemma {:induction false} NoneBeyond(d: Design, c: nat, n: nat)
    requires Sound(d) && c >= Pow2(d.base)
    ensures CountTo(d.cols, c, n) == 0
  {
    if n > 0 {
      NoneBeyond(d, c, n - 1);
      ColumnsStayBelow(d, n - 1, |d.cols|);
    }
  }

  /** Every column mask is reached by the same number of words. */
  ghost predicate Uniform(d: Design) {
    && Sound(d) && d.base <= |d.cols|
    && forall c: nat :: c < Pow2(d.base) ==> CountOf(d, c) == Pow2(|d.cols| - d.base)
  }

  lemma GenerateStaysUniform(d: Design, g: nat)
    requires Uniform(d) && g < Pow2(d.base)
    ensures Uniform(Generate(d, g))
  {
    var e := Generate(d, g);
    forall c: nat | c < Pow2(d.base)
      ensures CountOf(e, c) == Pow2(|e.cols| - e.base)
    {
      FactorSplitsCount(d, e, g, c);
      XorStaysBelow(c, g, d.base);
      assert CountOf(d, c) == CountOf(d, Xor(c, g)) == Pow2(|d.cols| - d.base);
    }
  }

  lemma CrossStaysUniform(d: Design)
    requires Uniform(d) && d.base < 32
    ensures Uniform(Cross(d))
  {
    var e, g := Cross(d), Pow2(d.base);
    forall c: nat | c < Pow2(e.base)
      ensures CountOf(e, c) == Pow2(|e.cols| - e.base)
    {
      FactorSplitsCount(d, e, g, c);
      assert CountOf(e, c) == CountOf(d, c) + CountOf(d, Xor(c, g));
      if c < g {
        XorTop(c, d.base);
        NoneBeyond(d, c + g, Pow2(|d.cols|));
      } else {
        XorTop(c - g, d.base);
        XorUndoes(c - g, g);
        NoneBeyond(d, c, Pow2(|d.cols|));
        assert CountOf(d, c - g) == Pow2(|d.cols| - d.base);
      }
    }
  }

  // ---------- which designs are uniform ----------

  /** Every column is one word wide. */
  predicate Narrow(d: Design) {
    forall f :: 0 <= f < |d.cols| ==> d.cols[f] < WORDS
  }

  lemma {:induction false} MadeIsNarrow(r: Recipe)
    requires Sensible(r)
    ensures Narrow(Made(r))
  {
    match r
    case Nothing =>
    case Crossed(q) =>
      MadeIsNarrow(q);
      if Made(q).base < 32 {
        WordIsPow32();
        Pow2Grows(Made(q).base, 32);
      }
    case Generated(q, c) => MadeIsNarrow(q);
  }

  /** No word reaches the column past the last bit of a mask. */
  lemma WideIsNotUniform(d: Design)
    requires Narrow(d) && d.base > 32
    ensures !Uniform(d)
  {
    WordIsPow32();
    NoneBeyond(d.(base := 32), WORDS, Pow2(|d.cols|));
    Pow2Grows(32, d.base);
    assert CountOf(d, WORDS) == 0;
  }

  lemma {:induction false} NarrowIsUniform(r: Recipe)
    requires Sensible(r) && Made(r).base <= 32
    ensures Uniform(Made(r))
  {
    match r
    case Nothing =>
      forall c: nat | c < Pow2(0)
        ensures CountOf(Made(r), c) == 1
      {
        assert ColUpTo([], 0, 0) == 0;
        assert CountTo([], 0, 1) == CountTo([], 0, 0) + 1;
      }
    case Crossed(q) =>
      NarrowIsUniform(q);
      CrossStaysUniform(Made(q));
    case Generated(q, c) =>
      NarrowIsUniform(q);
      GenerateStaysUniform(Made(q), c);
  }

  /** Counting, for every design that can be built: each column mask is that of
      exactly 2^(K-Base) words, until there are more base factors than a mask
      has bits. */
  lemma DesignsAreUniform(r: Recipe)
    requires Sensible(r)
    ensures Uniform(Made(r)) <==> Made(r).base <= 32
  {
    if Made(r).base <= 32 {
      NarrowIsUniform(r);
    } else {
      MadeIsNarrow(r);
      WideIsNotUniform(Made(r));
    }
  }
}
