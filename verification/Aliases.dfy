/** Alias classes of a design: how they are built and how many there are. */
module Aliases {
  import opened Bits
  import opened Sorting
  import opened Designs

  // ---------- generators ----------

  datatype Parsed = Refused | Accepted(d: Design)

  function Symbol(c: char): int {
    c as int - 'A' as int
  }

  predicate OverBase(g: string, base: int) {
    forall i :: 0 <= i < |g| ==> 0 <= Symbol(g[i]) < base
  }

  /** The mask of a generator's symbols. */
  function MaskOf(g: string): nat {
    if g == [] then 0
    else
      var i := Symbol(g[|g| - 1]);
      Or(MaskOf(g[..|g| - 1]), if i >= 0 then OneBit(i) else 0)
  }

  /** Written over base symbols, and at least two of them. */
  predicate Generates(g: string, base: int) {
    OverBase(g, base) && Ones(MaskOf(g)) >= 2
  }

  lemma {:induction false} MaskStaysBelow(g: string, base: nat)
    requires OverBase(g, base)
    ensures MaskOf(g) < Pow2(base)
  {
    if g != [] {
      MaskStaysBelow(g[..|g| - 1], base);
      Pow2Grows(Symbol(g[|g| - 1]), base);
      OrStaysBelow(MaskOf(g[..|g| - 1]), OneBit(Symbol(g[|g| - 1])), base);
    }
  }

  lemma {:induction false} MaskIsAWord(g: string)
    ensures MaskOf(g) < WORDS
  {
    WordIsPow32();
    if g != [] {
      MaskIsAWord(g[..|g| - 1]);
      var i := Symbol(g[|g| - 1]);
      if 0 <= i < 32 {
        Pow2Grows(i, 32);
      }
      OrStaysBelow(MaskOf(g[..|g| - 1]), if i >= 0 then OneBit(i) else 0, 32);
    }
  }

  function FullRecipe(k: nat): (r: Recipe)
    ensures Made(r) == Full(k) && Sensible(r)
  {
    if k == 0 then Nothing else Crossed(FullRecipe(k - 1))
  }

  /** The mask of a generator, if it is written over base symbols. */
  method ParseMask(g: string, base: int) returns (ok: bool, c: nat)
    ensures ok <==> OverBase(g, base)
    ensures ok ==> c == MaskOf(g)
  {
    c := 0;
    for i := 0 to |g|
      invariant c == MaskOf(g[..i]) && OverBase(g[..i], base)
    {
      var s := Symbol(g[i]);
      if s < 0 || s >= base {
        return false, c;
      }
      assert g[..i + 1][..i] == g[..i];
      c := Or(c, OneBit(s));
    }
    assert g[..|g|] == g;
    ok := true;
  }

  /** d's base factors, then one factor for each of the first j generators. */
  predicate Spelled(d: Design, gens: seq<string>, base: int, j: nat)
    requires j <= |gens|
  {
    && |d.cols| == d.base + j
    && forall i :: 0 <= i < j ==> Generates(gens[i], base) && d.cols[d.base + i] == MaskOf(gens[i])
  }

  lemma OneMoreSpelled(d: Design, gens: seq<string>, base: int, j: nat, c: nat)
    requires j < |gens| && Spelled(d, gens, base, j) && Generates(gens[j], base) && c == MaskOf(gens[j])
    ensures Spelled(d.(cols := d.cols + [c]), gens, base, j + 1)
  {
  }

  /** Accepts exactly lists of sound generators, and then builds a design of
      base factors and generated ones. */
  method Fractional(k: nat, gens: seq<string>) returns (r: Parsed, ghost recipe: Recipe)
    ensures r == Refused <==> exists j :: 0 <= j < |gens| && !Generates(gens[j], k - |gens|)
    ensures r.Accepted? ==> Sensible(recipe) && r.d == Made(recipe) && K(r.d) == k && r.d.base == k - |gens|
    ensures r.Accepted? ==> forall j :: 0 <= j < |gens| ==> r.d.cols[r.d.base + j] == MaskOf(gens[j])
  {
    var base := k - |gens|;
    var d := MakeFull(if base > 0 then base else 0);
    recipe := FullRecipe(if base > 0 then base else 0);
    FullShape(if base > 0 then base else 0);
    for j := 0 to |gens|
      invariant j > 0 ==> base >= 0
      invariant Sensible(recipe) && d == Made(recipe) && d.base == (if base > 0 then base else 0)
      invariant Spelled(d, gens, base, j)
    {
      var ok, c := ParseMask(gens[j], base);
      if !ok || Ones(c) < 2 {
        return Refused, recipe;
      }
      assert |gens[j]| > 0;
      assert 0 <= Symbol(gens[j][0]) < base;
      MaskStaysBelow(gens[j], base);
      MaskIsAWord(gens[j]);
      OneMoreSpelled(d, gens, base, j, c);
      recipe := Generated(recipe, c);
      d := d.(cols := d.cols + [c]);
    }
    r := Accepted(d);
  }

  lemma {:induction false} FullShape(k: nat)
    ensures Full(k).base == k && |Full(k).cols| == k
  {
    if k > 0 {
      FullShape(k - 1);
    }
  }

  // ---------- classes ----------

  /** The bound of the loop over words, 1<<K as a word. */
  function WordBound(d: Design): nat {
    OneBit(K(d))
  }

  /** Shorter words first, then smaller ones. */
  function Key(w: nat): int {
    Ones(w) * WORDS + w
  }

  lemma KeyIsByOrder(v: nat, w: nat)
    requires v < WORDS && w < WORDS
    ensures Key(v) <= Key(w) <==> Ones(v) < Ones(w) || (Ones(v) == Ones(w) && v <= w)
  {
  }

  /** The non-empty words below n whose column is c, ascending. */
  function WordsBelow(d: Design, c: nat, n: nat): seq<nat> {
    if n <= 1 then []
    else WordsBelow(d, c, n - 1) + if Column(d, n - 1) == c then [n - 1] else []
  }

  /** The alias class of column c, shortest word first. */
  function Class(d: Design, c: nat): seq<nat> {
    SortBy(WordsBelow(d, c, WordBound(d)), Key)
  }

  lemma {:induction false} ColumnOfEmptyWord(cols: seq<nat>, f: nat)
    requires f <= |cols|
    ensures ColUpTo(cols, 0, f) == 0
  {
    if f > 0 {
      NoBits(f - 1);
      ColumnOfEmptyWord(cols, f - 1);
    }
  }

  lemma {:induction false} NoBits(i: nat)
    ensures !Bit(0, i)
  {
    if i > 0 {
      NoBits(i - 1);
    }
  }

  lemma {:induction false} WordsAreCounted(d: Design, c: nat, n: nat)
    requires n > 0
    ensures |WordsBelow(d, c, n)| == CountTo(d.cols, c, n) - if c == 0 then 1 else 0
    ensures forall w :: w in WordsBelow(d, c, n) <==> 0 < w < n && Column(d, w) == c
  {
    if n == 1 {
      ColumnOfEmptyWord(d.cols, |d.cols|);
      assert CountTo(d.cols, c, 1) == CountTo(d.cols, c, 0) + if c == 0 then 1 else 0;
    } else {
      WordsAreCounted(d, c, n - 1);
    }
  }

  lemma ClassHolds(d: Design, c: nat)
    ensures K(d) < 32 ==> |Class(d, c)| == CountOf(d, c) - if c == 0 then 1 else 0
    ensures K(d) >= 32 ==> Class(d, c) == []
    ensures forall w :: w in Class(d, c) <==> 0 < w < WordBound(d) && Column(d, w) == c
    ensures Ordered(Class(d, c), Key)
  {
    var ws := WordsBelow(d, c, WordBound(d));
    if K(d) < 32 {
      WordsAreCounted(d, c, Pow2(K(d)));
    }
    SortIsOrdered(ws, Key);
    assert |Class(d, c)| == |multiset(Class(d, c))| == |multiset(ws)| == |ws|;
    forall w
      ensures w in Class(d, c) <==> w in ws
    {
      assert w in multiset(Class(d, c)) <==> w in multiset(ws);
    }
  }

  /** For every design that can be built of fewer than 32 factors, each
      non-defining alias class has 2^(K-Base) words and the defining one a
      word less; with more, the word loop never runs and every class is empty. */
  lemma ClassSizes(r: Recipe, c: nat)
    requires Sensible(r) && c < Pow2(Made(r).base)
    ensures var d := Made(r);
            |Class(d, c)| == if K(d) >= 32 then 0 else Pow2(K(d) - d.base) - if c == 0 then 1 else 0
  {
    if K(Made(r)) < 32 {
      DesignsAreUniform(r);
      UniformClassSizes(Made(r), c);
    } else {
      ClassHolds(Made(r), c);
    }
  }

  lemma UniformClassSizes(d: Design, c: nat)
    requires Uniform(d) && K(d) < 32 && c < Pow2(d.base)
    ensures |Class(d, c)| == Pow2(K(d) - d.base) - if c == 0 then 1 else 0
  {
    ClassHolds(d, c);
  }

  /** Words bucketed by column. */
  method Buckets(d: Design) returns (m: map<nat, seq<nat>>)
    ensures forall c :: c in m <==> WordsBelow(d, c, WordBound(d)) != []
    ensures forall c :: c in m ==> m[c] == WordsBelow(d, c, WordBound(d))
  {
    m := map[];
    var n := WordBound(d);
    for w := 1 to if n > 1 then n else 1
      invariant forall c :: c in m <==> WordsBelow(d, c, w) != []
      invariant forall c :: c in m ==> m[c] == WordsBelow(d, c, w)
    {
      var c := Col(d, w);
      ghost var before := m;
      m := m[c := (if c in m then m[c] else []) + [w]];
      forall x: nat
        ensures WordsBelow(d, x, w + 1) == if x in m then m[x] else []
      {
        assert WordsBelow(d, x, w) == if x in before then before[x] else [];
      }
    }
  }

  method Classes(d: Design) returns (m: map<nat, seq<nat>>)
    ensures forall c :: c in m <==> Class(d, c) != []
    ensures forall c :: c in m ==> m[c] == Class(d, c)
  {
    m := Buckets(d);
    forall c: nat
      ensures Class(d, c) == [] <==> WordsBelow(d, c, WordBound(d)) == []
    {
      SortIsOrdered(WordsBelow(d, c, WordBound(d)), Key);
      assert |multiset(Class(d, c))| == |multiset(WordsBelow(d, c, WordBound(d)))|;
    }
    m := map c | c in m :: SortBy(m[c], Key);
  }

  // ---------- contrasts ----------

  predicate Distinct(xs: seq<nat>) {
    forall i, j :: 0 <= i < j < |xs| ==> xs[i] != xs[j]
  }

  /** One visit of the classes, in some order. */
  predicate VisitsClasses(d: Design, order: seq<nat>) {
    Distinct(order) && (forall i :: 0 <= i < |order| ==> Class(d, order[i]) != [])
    && forall c: nat :: c < Pow2(d.base) && Class(d, c) != [] ==> c in order
  }

  function NonZero(order: seq<nat>): seq<nat> {
    if order == [] then []
    else NonZero(order[..|order| - 1]) + if order[|order| - 1] == 0 then [] else [order[|order| - 1]]
  }

  lemma {:induction false} NonZeroKeeps(order: seq<nat>)
    requires Distinct(order)
    ensures Distinct(NonZero(order)) && forall c :: c in NonZero(order) <==> c in order && c != 0
  {
    if order != [] {
      var front, last := order[..|order| - 1], order[|order| - 1];
      NonZeroKeeps(front);
      assert last !in front;
      assert order == front + [last];
    }
  }

  /** The alias classes of the listed columns. */
  function ClassesOf(d: Design, cs: seq<nat>): seq<seq<nat>> {
    seq(|cs|, i requires 0 <= i < |cs| => Class(d, cs[i]))
  }

  function FirstKey(ws: seq<nat>): int {
    if ws == [] then 0 else Key(ws[0])
  }

  lemma {:induction false} DistinctFillsRange(xs: seq<nat>, n: nat)
    requires Distinct(xs) && n > 0
    requires forall c: nat :: c in xs <==> 0 < c < n
    ensures |xs| == n - 1
    decreases n
  {
    var head := if |xs| > 0 then xs[0] else 0;
    assert head in xs <==> 0 < head < n;
    if n > 1 {
      assert n - 1 in xs;
      var k :| 0 <= k < |xs| && xs[k] == n - 1;
      var ys := xs[..k] + xs[k + 1..];
      forall i, j | 0 <= i < j < |ys|
        ensures ys[i] != ys[j]
      {
        assert ys[i] == xs[if i < k then i else i + 1] && ys[j] == xs[if j < k then j else j + 1];
      }
      forall c: nat
        ensures c in ys <==> 0 < c < n - 1
      {
        if c in ys {
          var i :| 0 <= i < |ys| && ys[i] == c;
          var u := if i < k then i else i + 1;
          assert c == xs[u] && u != k && xs[u] in xs;
          assert if u < k then xs[u] != xs[k] else xs[k] != xs[u];
        }
        if 0 < c < n - 1 {
          assert c in xs;
          var i :| 0 <= i < |xs| && xs[i] == c;
          assert ys[if i < k then i else i - 1] == c;
        }
      }
      DistinctFillsRange(ys, n - 1);
    }
  }

  /** The columns of a uniform design other than 0 each head one contrast. */
  lemma ContrastColumns(d: Design, order: seq<nat>)
    requires Uniform(d) && K(d) < 32 && VisitsClasses(d, order)
    ensures |NonZero(order)| == Pow2(d.base) - 1
    ensures forall c: nat :: c in NonZero(order) <==> 0 < c < Pow2(d.base)
  {
    NonZeroKeeps(order);
    forall c: nat
      ensures c in NonZero(order) <==> 0 < c < Pow2(d.base)
    {
      ClassHolds(d, c);
      if c in order {
        var w := Class(d, c)[0];
        assert w in Class(d, c);
        ColumnsStayBelow(d, w, |d.cols|);
      }
      if 0 < c < Pow2(d.base) {
        assert CountOf(d, c) == Pow2(|d.cols| - d.base);
      }
    }
    DistinctFillsRange(NonZero(order), Pow2(d.base));
  }

  /** Exactly 2^Base - 1 contrasts, one for each column but 0, each a whole
      alias class, ordered by their shortest words; none from 32 factors on. */
  method Contrasts(d: Design, order: seq<nat>) returns (out: seq<seq<nat>>)
    requires Uniform(d) && VisitsClasses(d, order)
    ensures |out| == Pow2(d.base) - 1 <==> K(d) < 32 || d.base == 0
    ensures K(d) < 32 ==> forall c :: 0 < c < Pow2(d.base) ==> Class(d, c) in out
    ensures K(d) >= 32 ==> out == []
    ensures forall i :: 0 <= i < |out| ==> exists c :: 0 < c < Pow2(d.base) && out[i] == Class(d, c)
    ensures Ordered(out, FirstKey)
  {
    var unsorted := Picked(d, order);
    SortIsOrdered(unsorted, FirstKey);
    out := SortBy(unsorted, FirstKey);
    assert |out| == |multiset(out)| == |multiset(unsorted)| == |unsorted|;
    ContrastCount(d, order);
    if K(d) < 32 {
      ContrastColumns(d, order);
      SameMembers(d, NonZero(order), out);
    }
  }

  /** The classes but the defining one, in the order visited. */
  method Picked(d: Design, order: seq<nat>) returns (out: seq<seq<nat>>)
    requires VisitsClasses(d, order)
    ensures out == ClassesOf(d, NonZero(order))
  {
    var cl := Classes(d);
    out := [];
    for i := 0 to |order|
      invariant out == ClassesOf(d, NonZero(order[..i]))
    {
      assert order[..i + 1][..i] == order[..i];
      if order[i] != 0 {
        out := out + [cl[order[i]]];
      }
    }
    assert order[..|order|] == order;
  }

  /** The word loop of a design of 32 factors or more never runs. */
  lemma ContrastCount(d: Design, order: seq<nat>)
    requires Uniform(d) && VisitsClasses(d, order)
    ensures |NonZero(order)| == if K(d) < 32 then Pow2(d.base) - 1 else 0
    ensures Pow2(d.base) == 1 <==> d.base == 0
  {
    if d.base > 0 {
      Pow2Grows(0, d.base);
    }
    if K(d) < 32 {
      ContrastColumns(d, order);
    } else if order != [] {
      ClassHolds(d, order[0]);
      assert false;
    }
  }

  lemma SameMembers(d: Design, cs: seq<nat>, out: seq<seq<nat>>)
    requires multiset(out) == multiset(ClassesOf(d, cs))
    ensures forall c :: c in cs ==> Class(d, c) in out
    ensures forall i :: 0 <= i < |out| ==> exists c :: c in cs && out[i] == Class(d, c)
  {
    var all := ClassesOf(d, cs);
    forall c | c in cs
      ensures Class(d, c) in out
    {
      var k :| 0 <= k < |cs| && cs[k] == c;
      assert all[k] in multiset(all);
    }
    forall i | 0 <= i < |out|
      ensures exists c :: c in cs && out[i] == Class(d, c)
    {
      assert out[i] in multiset(all);
      var k :| 0 <= k < |all| && all[k] == out[i];
      assert cs[k] in cs;
    }
  }
}
