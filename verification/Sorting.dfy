/** Sorting by an integer key, as slices.SortFunc does with a total order. */
module Sorting {

  predicate Ordered<T(!new)>(xs: seq<T>, key: T -> int) {
    forall i, j :: 0 <= i < j < |xs| ==> key(xs[i]) <= key(xs[j])
  }

  function SortBy<T(!new)>(xs: seq<T>, key: T -> int): seq<T> {
    if xs == [] then [] else InsertBy(xs[0], SortBy(xs[1..], key), key)
  }

  function InsertBy<T(!new)>(x: T, xs: seq<T>, key: T -> int): seq<T> {
    if xs == [] || key(x) <= key(xs[0]) then [x] + xs else [xs[0]] + InsertBy(x, xs[1..], key)
  }

  lemma {:induction false} InsertKeepsElements<T(!new)>(x: T, xs: seq<T>, key: T -> int)
    ensures multiset(InsertBy(x, xs, key)) == multiset(xs) + multiset{x}
  {
    if xs != [] && key(x) > key(xs[0]) {
      InsertKeepsElements(x, xs[1..], key);
      assert xs == [xs[0]] + xs[1..];
    }
  }

  lemma {:induction false} InsertIsOrdered<T(!new)>(x: T, xs: seq<T>, key: T -> int)
    requires Ordered(xs, key)
    ensures Ordered(InsertBy(x, xs, key), key)
  {
    if xs != [] && key(x) > key(xs[0]) {
      InsertIsOrdered(x, xs[1..], key);
      InsertedAbove(xs[0], x, xs[1..], key);
    }
  }

  lemma {:induction false} InsertedAbove<T(!new)>(low: T, x: T, xs: seq<T>, key: T -> int)
    requires key(low) <= key(x) && forall i :: 0 <= i < |xs| ==> key(low) <= key(xs[i])
    ensures forall i :: 0 <= i < |InsertBy(x, xs, key)| ==> key(low) <= key(InsertBy(x, xs, key)[i])
  {
    if xs != [] && key(x) > key(xs[0]) {
      InsertedAbove(low, x, xs[1..], key);
    }
  }

  lemma {:induction false} SortIsOrdered<T(!new)>(xs: seq<T>, key: T -> int)
    ensures Ordered(SortBy(xs, key), key) && multiset(SortBy(xs, key)) == multiset(xs)
  {
    if xs != [] {
      SortIsOrdered(xs[1..], key);
      InsertIsOrdered(xs[0], SortBy(xs[1..], key), key);
      InsertKeepsElements(xs[0], SortBy(xs[1..], key), key);
      assert xs == [xs[0]] + xs[1..];
    }
  }
}
