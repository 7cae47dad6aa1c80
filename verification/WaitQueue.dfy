/** The intrusive FIFO of blocked acquisitions. */
module WaitQueue {
  import opened Sequences

  datatype WaitState = Waiting | Granted | Withdrawn

  /** all is split into the waiters already served and those left, in order. */
  ghost predicate Split(all: seq<Waiter>, done: set<Waiter>, left: seq<Waiter>) {
    && (forall i :: 0 <= i < |left| ==> left[i] in all && left[i] !in done)
    && (forall w :: w in all ==> w in left || w in done)
  }

  lemma SplitHead(all: seq<Waiter>, done: set<Waiter>, left: seq<Waiter>)
    requires Split(all, done, left)
    requires left != [] && left[0] !in left[1..]
    ensures Split(all, done + {left[0]}, left[1..])
  {
    forall i | 0 <= i < |left[1..]|
      ensures left[1..][i] in all && left[1..][i] !in done + {left[0]}
    {
      assert left[1..][i] == left[i + 1];
    }
  }

  lemma WithoutDistinct(q: seq<Waiter>, k: nat)
    requires k < |q|
    requires forall i, j :: 0 <= i < j < |q| ==> q[i] != q[j]
    ensures forall i, j :: 0 <= i < j < |q| - 1 ==> Without(q, k)[i] != Without(q, k)[j]
    ensures q[k] !in Without(q, k)
  {
  }

  class Waiter {
    const n: int
    var state: WaitState
    var ready: nat  // tokens in the wake-up channel, which holds at most one
    var prev: Waiter?
    var next: Waiter?
    ghost const home: object  // whose queue this waiter was made for

    constructor (n: int, ghost home: object)
      ensures this.n == n && this.home == home && state == Waiting && ready == 0
      ensures prev == null && next == null
    {
      this.n, this.home, state, ready, prev, next := n, home, Waiting, 0, null, null;
    }

    /** Records s and sends the token; the send never blocks. */
    method Wake(s: WaitState)
      requires ready == 0
      modifies this`state, this`ready
      ensures state == s && ready == 1
    {
      state := s;
      ready := ready + 1;
    }
  }

  /** A FIFO of waiters. A key entry is a queue plus the key it serves; the
      source embeds one in the other, so here they are one object. */
  class WaitQ {
    var key: string  // "" for a budget's queue and for an idle key entry
    var head: Waiter?
    var tail: Waiter?
    var len: int
    ghost var Nodes: seq<Waiter>
    ghost var Woken: seq<Waiter>  // everyone ever woken from here, in order

    /** The heap shape is exactly the sequence Nodes. */
    ghost predicate Valid()
      reads this`len, this`head, this`tail, this`Nodes, Nodes`prev, Nodes`next
    {
      len == |Nodes| && Linked()
    }

    ghost predicate Linked()
      reads this`head, this`tail, this`Nodes, Nodes`prev, Nodes`next
    {
      && (forall i, j :: 0 <= i < j < |Nodes| ==> Nodes[i] != Nodes[j])
      && (head == if Nodes == [] then null else Nodes[0])
      && (tail == if Nodes == [] then null else Nodes[|Nodes| - 1])
      && (forall i {:trigger Nodes[i].prev} :: 0 <= i < |Nodes| ==>
            Nodes[i].prev == if i == 0 then null else Nodes[i - 1])
      && (forall i {:trigger Nodes[i].next} :: 0 <= i < |Nodes| ==>
            Nodes[i].next == if i == |Nodes| - 1 then null else Nodes[i + 1])
    }

    constructor ()
      ensures Valid() && Nodes == [] && key == ""
    {
      key, head, tail, len, Nodes, Woken := "", null, null, 0, [], [];
    }

    method Push(w: Waiter)
      requires Valid() && w !in Nodes
      modifies this`head, this`tail, this`len, this`Nodes, w`prev, w`next, Nodes`next
      ensures Valid() && Nodes == old(Nodes) + [w]
    {
      w.prev, w.next := tail, null;
      if tail == null {
        head := w;
      } else {
        tail.next := w;
      }
      tail := w;
      len := len + 1;
      Nodes := Nodes + [w];
    }

    method Remove(w: Waiter, ghost k: nat)
      requires Valid() && k < |Nodes| && Nodes[k] == w
      modifies this`head, this`tail, this`len, this`Nodes, Nodes`prev, Nodes`next
      ensures Valid() && Nodes == Without(old(Nodes), k)
      ensures w.prev == null && w.next == null && w !in Nodes
    {
      WithoutDistinct(Nodes, k);
      if w.prev == null {
        head := w.next;
      } else {
        w.prev.next := w.next;
      }
      if w.next == null {
        tail := w.prev;
      } else {
        w.next.prev := w.prev;
      }
      w.prev, w.next := null, null;
      len := len - 1;
      Nodes := Without(Nodes, k);
    }

    method PopHead() returns (w: Waiter)
      requires Valid() && head != null
      modifies this`head, this`tail, this`len, this`Nodes, Nodes`prev, Nodes`next
      ensures Valid() && Nodes == old(Nodes)[1..]
      ensures w == old(Nodes)[0] && w !in Nodes
    {
      w := head;
      WithoutHead(Nodes);
      Remove(w, 0);
    }

    /** The body of both serving loops: unlinks the head and wakes it with s. */
    method ServeHead(s: WaitState) returns (w: Waiter)
      requires Valid() && head != null && head.ready == 0
      modifies this`head, this`tail, this`len, this`Nodes, this`Woken, Nodes`prev, Nodes`next, head`state, head`ready
      ensures Valid() && Nodes == old(Nodes)[1..] && Woken == old(Woken) + [w]
      ensures w == old(Nodes)[0] && w !in Nodes && w.state == s && w.ready == 1
    {
      w := PopHead();
      w.Wake(s);
      Woken := Woken + [w];
    }

    /** Withdraws every waiter once, head first, each with one token. */
    method CloseAll()
      requires Valid()
      requires forall w :: w in Nodes ==> w.ready == 0
      modifies this`head, this`tail, this`len, this`Nodes, this`Woken, Nodes
      ensures Valid() && Nodes == [] && Woken == old(Woken) + old(Nodes)
      ensures forall w :: w in old(Nodes) ==> w.state == Withdrawn && w.ready == 1
    {
      ghost var all, done: set<Waiter> := Nodes, {};
      while head != null
        invariant Valid()
        invariant Split(all, done, Nodes)
        invariant Woken + Nodes == old(Woken) + all
        invariant forall i :: 0 <= i < |Nodes| ==> Nodes[i].ready == 0
        invariant forall w :: w in done ==> w.state == Withdrawn && w.ready == 1
        decreases |Nodes|
      {
        SplitHead(all, done, Nodes);
        HeadMovesOver(Woken, Nodes);
        var w := ServeHead(Withdrawn);
        done := done + {w};
      }
    }
  }
}
