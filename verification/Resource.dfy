/** The budget semaphore in place: each method is one critical section and
    does to the fields what the function of the same name in Budgets does. */
module Resources {
  import opened Sequences
  import opened WaitQueue
  import B = Budgets

  function Tickets(ws: seq<Waiter>): (ts: seq<B.Ticket<Waiter>>)
    ensures |ts| == |ws|
    ensures forall i :: 0 <= i < |ws| ==> ts[i] == B.Ticket(ws[i], ws[i].n)
  {
    seq(|ws|, i requires 0 <= i < |ws| => B.Ticket(ws[i], ws[i].n))
  }

  class Resource {
    var full: bool    // atomic; readable without the lock
    var isFull: bool  // guarded copy of full
    var cur: int
    const q: WaitQ
    var closed: bool
    const size: int

    ghost function Abs(): B.Budget<Waiter>
      reads this, q
    {
      B.Budget(size, cur, Tickets(q.Nodes), closed, full)
    }

    /** What holds inside a critical section. */
    ghost predicate Open()
      reads this, q, q.Nodes
    {
      && q.Valid()
      && isFull == full
      && B.Sane(Abs())
      && Asleep()
    }

    ghost predicate Asleep()
      reads this, q, q.Nodes
    {
      forall i :: 0 <= i < |q.Nodes| ==> q.Nodes[i].state == Waiting && q.Nodes[i].ready == 0
    }

    /** What holds at every unlock. */
    ghost predicate Valid()
      reads this, q, q.Nodes
    {
      Open() && B.Settled(Abs())
    }

    constructor (capacity: int)
      requires 0 < capacity <= B.MAX_INT64
      ensures Valid() && Abs() == B.Budget(capacity, 0, [], false, false)
      ensures fresh(q)
    {
      full, isFull, cur, closed, size := false, false, 0, false, capacity;
      q := new WaitQ();
    }

    /** Publishes full, storing it only when it changes. */
    method Sync()
      requires Open()
      modifies this`full, this`isFull
      ensures Open() && Abs() == B.Sync(old(Abs()))
    {
      var f := q.len > 0 || closed || cur >= size;
      if f != isFull {
        isFull := f;
        full := f;
      }
    }

    method TryAcquire(n: int) returns (ok: bool)
      requires Valid() && 0 < n <= size
      modifies this
      ensures Valid() && (Abs(), ok) == B.TryAcquire(old(Abs()), n)
    {
      if full {
        return false;
      }
      ok := q.len == 0 && size - cur >= n;
      if ok {
        cur := cur + n;
        Sync();
      }
    }

    /** The first critical section of acquire: takes the units, refuses, or
        queues a new waiter. */
    method Acquire(n: int, ended: bool) returns (v: B.Verdict, w: Waiter?)
      requires Valid() && 0 < n <= size
      modifies this, q, q.Nodes`next
      ensures Valid()
      ensures v == B.Queued <==> w != null
      ensures w != null ==> fresh(w) && w.n == n && w.state == Waiting && q.Nodes == old(q.Nodes) + [w]
      ensures forall t: B.Ticket<Waiter> :: t.n == n && (w != null ==> t.id == w)
                ==> (Abs(), v) == B.Acquire(old(Abs()), t, ended)
    {
      w := null;
      if q.len == 0 && size - cur >= n {
        cur := cur + n;
        Sync();
        v := B.Taken;
      } else if closed || ended {
        v := B.Refused;
      } else {
        var x := new Waiter(n, this);
        q.Push(x);
        assert Tickets(q.Nodes) == old(Tickets(q.Nodes)) + [B.Ticket(x, n)];
        assert B.Sane(Abs());
        Sync();
        v, w := B.Queued, x;
        assert Abs() == B.Acquire(old(Abs()), B.Ticket(x, n), ended).0;
        B.AcquiringStaysSettled(old(Abs()), B.Ticket(x, n), ended);
      }
    }

    /** One turn of the grant loop. */
    method GrantHead() returns (w: Waiter)
      requires Open() && B.HeadFits(Abs())
      modifies this`cur, q, q.Nodes`prev, q.Nodes`next, q.head`state, q.head`ready
      ensures Open() && Abs() == B.GrantHead(old(Abs()))
      ensures old(q.Nodes) != [] && w == old(q.Nodes)[0] && q.Nodes == old(q.Nodes)[1..] && w !in q.Nodes
      ensures q.Woken == old(q.Woken) + [w]
      ensures w.state == Granted && w.ready == 1
    {
      assert q.head == q.Nodes[0];
      cur := cur + q.head.n;
      w := q.ServeHead(Granted);
      assert Tickets(q.Nodes) == Tickets(old(q.Nodes))[1..];
      assert B.Sane(Abs());
    }

    /** Admits waiters from the head while each one fits. */
    method Grant()
      requires Open()
      modifies this`cur, q, q.Nodes
      ensures Open() && Abs() == B.Grant(old(Abs()))
      ensures forall i :: 0 <= i < |q.Nodes| ==> q.Nodes[i] in old(q.Nodes)
      ensures forall w :: w in old(q.Nodes) ==> w in q.Nodes || (w.state == Granted && w.ready == 1)
      ensures q.Woken + q.Nodes == old(q.Woken + q.Nodes)
    {
      ghost var all, was, done: set<Waiter> := q.Nodes, q.Woken + q.Nodes, {};
      while q.head != null && size - cur >= q.head.n
        invariant Open()
        invariant B.Grant(Abs()) == B.Grant(old(Abs()))
        invariant Split(all, done, q.Nodes)
        invariant q.Woken + q.Nodes == was
        invariant forall w :: w in done ==> w.state == Granted && w.ready == 1
        decreases |q.Nodes|
      {
        SplitHead(all, done, q.Nodes);
        HeadMovesOver(q.Woken, q.Nodes);
        var w := GrantHead();
        done := done + {w};
      }
    }

    method Release(n: int)
      requires Valid() && 0 < n <= cur
      modifies this, q, q.Nodes
      ensures Valid() && Abs() == B.Release(old(Abs()), n)
      ensures q.Woken + q.Nodes == old(q.Woken + q.Nodes)
      ensures forall w :: w in old(q.Nodes) ==> w in q.Nodes || (w.state == Granted && w.ready == 1)
    {
      B.ReleaseStaysSettled(Abs(), n);
      cur := cur - n;
      Grant();
      Sync();
    }

    /** Settles a waiter that is not keeping a grant: one still queued is
        removed, one granted returns the units. A waiter already woken has its
        token or has taken it, so the receive never blocks. */
    method Leave(w: Waiter, woken: bool, ghost k: nat)
      requires Valid()
      requires w.state == Waiting ==> k < |q.Nodes| && q.Nodes[k] == w
      requires w.state != Waiting ==> w !in q.Nodes && (woken || w.ready == 1)
      requires w.state == Granted ==> 0 < w.n <= cur
      modifies this, q, q.Nodes, w`ready
      ensures Valid()
      ensures old(w.state) == Waiting ==> Abs() == B.Leave(old(Abs()), k)
      ensures old(w.state) == Granted ==> Abs() == B.Release(old(Abs()), w.n)
      ensures old(w.state) == Withdrawn ==> Abs() == old(Abs())
      ensures forall x :: x in old(q.Nodes) && x != w ==> x in q.Nodes || (x.state == Granted && x.ready == 1)
    {
      if w.state == Waiting {
        Dequeue(w, k);
        return;
      }
      if !woken {
        w.ready := w.ready - 1;
      }
      if w.state == Granted {
        Release(w.n);
      } else {
        Sync();
      }
    }

    /** The queued branch of leave. */
    method Dequeue(w: Waiter, ghost k: nat)
      requires Valid()
      requires k < |q.Nodes| && q.Nodes[k] == w
      modifies this, q, q.Nodes
      ensures Valid() && Abs() == B.Leave(old(Abs()), k)
      ensures forall x :: x in old(q.Nodes) && x != w ==> x in q.Nodes || (x.state == Granted && x.ready == 1)
    {
      B.LeaveStaysSettled(Abs(), k);
      var head := q.head == w;
      Unlink(w, k);
      if head {
        Grant();
      }
      Sync();
    }

    method Unlink(w: Waiter, ghost k: nat)
      requires Open()
      requires k < |q.Nodes| && q.Nodes[k] == w
      modifies q, q.Nodes`prev, q.Nodes`next
      ensures Open() && Abs() == old(Abs().(queue := Without(Abs().queue, k)))
      ensures forall x :: x in old(q.Nodes) && x != w ==> x in q.Nodes
      ensures forall i :: 0 <= i < |q.Nodes| ==> q.Nodes[i] in old(q.Nodes)
    {
      q.Remove(w, k);
      assert Tickets(q.Nodes) == Without(old(Tickets(q.Nodes)), k);
    }

    /** Withdraws every waiter and refuses new ones. */
    method Close()
      requires Valid()
      modifies this, q, q.Nodes
      ensures Valid() && Abs() == B.Close(old(Abs()))
      ensures q.Woken == old(q.Woken + q.Nodes)
      ensures forall w :: w in old(q.Nodes) ==> w.state == Withdrawn && w.ready == 1
    {
      closed := true;
      q.CloseAll();
      Sync();
    }
  }
}
