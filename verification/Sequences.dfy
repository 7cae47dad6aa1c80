/** Sequence helpers shared by the queues. */
module Sequences {

  /** q without its k-th element. */
  function Without<T>(q: seq<T>, k: nat): seq<T>
    requires k < |q|
  {
    q[..k] + q[k + 1..]
  }

  lemma WithoutHead<T>(q: seq<T>)
    requires q != []
    ensures Without(q, 0) == q[1..]
  {
  }

  /** What holds at first and carries over each step holds all along. */
  lemma {:induction false} Along(holds: seq<bool>, j: nat)
    requires j < |holds| && holds[0]
    requires forall i :: 0 <= i < j && holds[i] ==> holds[i + 1]
    ensures holds[j]
  {
    if j > 0 {
      Along(holds, j - 1);
      assert holds[j - 1 + 1];
    }
  }

  lemma HeadMovesOver<T>(done: seq<T>, left: seq<T>)
    requires left != []
    ensures done + [left[0]] + left[1..] == done + left
  {
  }

  /** Position of x in a queue, or its length. */
  function IndexOf(q: seq<int>, x: int): (k: nat)
    ensures k <= |q|
    ensures k < |q| ==> q[k] == x
    ensures forall i :: 0 <= i < k ==> q[i] != x
  {
    if q == [] || q[0] == x then 0 else 1 + IndexOf(q[1..], x)
  }

  lemma StaysIn(q: seq<int>, k: nat, d: int)
    requires k < |q| && d in q && d != q[k]
    ensures d in Without(q, k)
  {
    var j :| 0 <= j < |q| && q[j] == d;
    assert Without(q, k)[if j < k then j else j - 1] == d;
  }
}
