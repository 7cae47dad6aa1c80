/** Per-key mutual exclusion with FIFO hand-off, in place: entries live in a
    map while their key is held and go back to a pool when it is not. */
module KeyLockers {
  import opened Sequences
  import opened WaitQueue

  datatype Verdict = Taken | Refused | Queued

  /** Held keys, each with the waiters behind its holder. */
  type Queues = map<string, seq<Waiter>>

  /** The holder of k leaves: the head waiter gets the key, or k becomes free. */
  function Pass(qs: Queues, k: string): Queues
    requires k in qs
  {
    if qs[k] != [] then qs[k := qs[k][1..]] else qs - {k}
  }

  /** Everybody waiting for one of these keys. */
  function Behind(qs: Queues, ks: set<string>): set<Waiter> {
    set k, w | k in ks && k in qs && w in qs[k] :: w
  }

  class KeyLocker {
    var m: map<string, WaitQ>
    var closed: bool
    var pool: set<WaitQ>
    ghost var entries: set<WaitQ>  // live and pooled

    ghost function Waiters(): set<Waiter>
      reads this`entries, set e | e in entries :: e`Nodes
    {
      set e, i | e in entries && 0 <= i < |e.Nodes| :: e.Nodes[i]
    }

    ghost predicate Valid()
      reads *
    {
      Placed() && PoolIdle() && AllSound()
    }

    ghost predicate PoolIdle()
      reads this`pool, pool`Nodes
    {
      forall e :: e in pool ==> e.Nodes == []
    }

    ghost predicate Placed()
      reads this`m, this`pool, this`entries, entries`key
    {
      && pool <= entries
      && (forall k :: k in m ==> m[k] in entries && m[k] !in pool && m[k].key == k)
      && (forall e :: e in entries ==> Idle(e) || Live(e))
    }

    ghost predicate Idle(e: WaitQ)
      reads this`pool, e`key
    {
      e in pool && e.key == ""
    }

    /** e is the entry of a held key. */
    ghost predicate Live(e: WaitQ)
      reads this`m, this`pool, e`key
    {
      e !in pool && e.key in m && m[e.key] == e
    }

    /** The held keys and who waits for each. */
    ghost function Abs(): (qs: Queues)
      reads this`m, m.Values`Nodes
      ensures forall k :: k in qs <==> k in m
      ensures forall k :: k in m ==> qs[k] == m[k].Nodes
    {
      map k | k in m :: m[k].Nodes
    }

    ghost predicate Sound(e: WaitQ)
      reads e`head, e`tail, e`len, e`Nodes, e`Woken, e.Nodes
    {
      && e.Valid()
      && forall i :: 0 <= i < |e.Nodes| ==>
           e.Nodes[i].home == e && e.Nodes[i].state == Waiting && e.Nodes[i].ready == 0
    }

    constructor ()
      ensures Valid() && Abs() == map[] && !closed && entries == {}
    {
      m, closed, pool, entries := map[], false, {}, {};
    }

    /** An idle entry, from the pool or new. */
    method Get() returns (e: WaitQ)
      requires Placed() && PoolIdle()
      modifies this`pool, this`entries
      ensures e !in pool && pool == old(pool) - {e} && entries == old(entries) + {e}
      ensures e in old(pool) || (fresh(e) && e.Valid())
      ensures e.Nodes == []
    {
      if pool != {} {
        e :| e in pool;
        pool := pool - {e};
      } else {
        e := new WaitQ();
        entries := entries + {e};
      }
    }

    /** Gives a free key an entry. */
    method Open(key: string) returns (e: WaitQ)
      requires Placed() && PoolIdle() && key !in m
      modifies this`m, this`pool, this`entries, pool`key
      ensures Placed() && PoolIdle() && Live(e) && e.key == key
      ensures Abs() == old(Abs())[key := []]
      ensures entries == old(entries) + {e} && (e in old(entries) || (fresh(e) && e.Valid()))
    {
      e := Get();
      e.key := key;
      m := m[key := e];
      forall x | x in entries && x != e
        ensures Idle(x) || Live(x)
      {
        assert old(Idle(x) || Live(x));
      }
    }

    /** Frees a key nobody waits for; its entry goes back to the pool. */
    method Retire(e: WaitQ)
      requires Placed() && PoolIdle() && e in entries && Live(e) && e.Nodes == []
      modifies this`m, this`pool, e`key
      ensures Placed() && PoolIdle() && Abs() == old(Abs()) - {old(e.key)}
    {
      m := m - {e.key};
      e.key := "";
      pool := pool + {e};
    }

    ghost predicate AllSound()
      reads this`entries, entries, Waiters()
    {
      forall e :: e in entries ==> Sound(e)
    }

    /** Wakes the first waiter of e with the key. */
    method Wake(e: WaitQ)
      requires AllSound() && e in entries && e.Nodes != []
      modifies e`head, e`tail, e`len, e`Nodes, e`Woken, e.Nodes
      ensures AllSound() && e.Nodes == old(e.Nodes)[1..]
      ensures old(e.Nodes)[0].state == Granted && old(e.Nodes)[0].ready == 1
    {
      assert Sound(e);
      forall f, i | f in entries && f != e && 0 <= i < |f.Nodes|
        ensures f.Nodes[i] !in e.Nodes
      {
        assert Sound(f);
      }
      assert forall f :: f in entries ==> Sound(f);
      var w := e.ServeHead(Granted);
    }

    twostate lemma OneQueueChanged(e: WaitQ)
      requires old(Placed()) && old(allocated(e)) && e in old(entries) && old(Live(e))
      requires m == old(m)
      requires forall f :: f in old(entries) && f != e ==> f.Nodes == old(f.Nodes)
      ensures Abs() == old(Abs())[old(e.key) := e.Nodes]
    {
      forall k | k in m
        ensures Abs()[k] == old(Abs())[old(e.key) := e.Nodes][k]
      {
        assert old(m[k] in entries && m[k].key == k);
      }
    }

    /** Passes the held key to the next waiter, or retires the entry. */
    method HandOff(e: WaitQ)
      requires Valid() && e in entries && Live(e)
      modifies this`m, this`pool, entries, Waiters()
      ensures Valid()
      ensures old(e.key) in old(Abs()) && Abs() == Pass(old(Abs()), old(e.key))
      ensures old(e.Nodes) != [] ==> old(e.Nodes)[0].state == Granted && old(e.Nodes)[0].ready == 1
    {
      assert Sound(e);
      if e.head != null {
        Serve(e);
      } else {
        Retire(e);
      }
    }

    method Serve(e: WaitQ)
      requires Valid() && e in entries && Live(e) && e.Nodes != []
      modifies e`head, e`tail, e`len, e`Nodes, e`Woken, e.Nodes
      ensures Valid() && Abs() == old(Abs())[e.key := old(e.Nodes)[1..]]
      ensures old(e.Nodes)[0].state == Granted && old(e.Nodes)[0].ready == 1
    {
      Wake(e);
      OneQueueChanged(e);
    }

    method Queue(e: WaitQ) returns (w: Waiter)
      requires Valid() && e in entries && Live(e)
      modifies e`head, e`tail, e`len, e`Nodes, e.Nodes`next
      ensures Valid() && fresh(w) && w.state == Waiting
      ensures Abs() == old(Abs())[e.key := old(e.Nodes) + [w]]
    {
      w := PushWaiter(e);
      OneQueueChanged(e);
    }

    method Enter(key: string) returns (e: WaitQ)
      requires Valid() && key !in m
      modifies this`m, this`pool, this`entries, pool`key
      ensures Valid() && e in entries && Live(e) && e.key == key
      ensures Abs() == old(Abs())[key := []]
    {
      e := Open(key);
      forall f | f in entries
        ensures Sound(f)
      {
        if f in old(entries) {
          assert old(Sound(f));
        }
      }
    }

    /** Releases a key; null is a no-op. */
    method Unlock(e: WaitQ?)
      requires Valid()
      requires e != null ==> e in entries && Live(e)
      modifies this`m, this`pool, entries, Waiters()
      ensures Valid()
      ensures Abs() == if e == null then old(Abs()) else Pass(old(Abs()), old(e.key))
    {
      if e == null {
        return;
      }
      HandOff(e);
    }

    method PushWaiter(e: WaitQ) returns (w: Waiter)
      requires AllSound() && e in entries
      modifies e`head, e`tail, e`len, e`Nodes, e.Nodes`next
      ensures AllSound() && e.Nodes == old(e.Nodes) + [w] && fresh(w) && w.state == Waiting
    {
      assert Sound(e);
      forall f, i | f in entries && f != e && 0 <= i < |f.Nodes|
        ensures f.Nodes[i] !in e.Nodes
      {
        assert Sound(f);
      }
      assert forall f :: f in entries ==> Sound(f);
      w := new Waiter(1, e);
      e.Push(w);
    }

    /** The critical section of lock. */
    method Lock(key: string, reject: bool, ended: bool) returns (v: Verdict, e: WaitQ?, w: Waiter?)
      requires Valid()
      modifies this`m, this`pool, this`entries, entries, Waiters()
      ensures Valid()
      ensures v == Taken <==> key !in old(Abs())
      ensures v == Taken ==> Abs() == old(Abs())[key := []]
      ensures v == Refused <==> key in old(Abs()) && (reject || closed || ended)
      ensures v == Refused ==> Abs() == old(Abs()) && e == null
      ensures v == Queued ==>
                && w != null && fresh(w) && w.state == Waiting
                && Abs() == old(Abs())[key := old(Abs())[key] + [w]]
      ensures v != Refused ==> e != null && e in entries && Live(e) && e.key == key
    {
      if key !in m {
        e := Enter(key);
        return Taken, e, null;
      }
      if reject || closed || ended {
        return Refused, null, null;
      }
      e := m[key];
      assert Idle(e) || Live(e);
      w := Queue(e);
      return Queued, e, w;
    }

    method RemoveWaiter(e: WaitQ, w: Waiter, ghost k: nat)
      requires AllSound() && e in entries && k < |e.Nodes| && e.Nodes[k] == w
      modifies e`head, e`tail, e`len, e`Nodes, e.Nodes`prev, e.Nodes`next
      ensures AllSound() && e.Nodes == Without(old(e.Nodes), k)
    {
      assert Sound(e);
      forall f, i | f in entries && f != e && 0 <= i < |f.Nodes|
        ensures f.Nodes[i] !in e.Nodes
      {
        assert Sound(f);
      }
      assert forall f :: f in entries ==> Sound(f);
      e.Remove(w, k);
    }

    method Dequeue(e: WaitQ, w: Waiter, ghost k: nat)
      requires Valid() && e in entries && Live(e) && k < |e.Nodes| && e.Nodes[k] == w
      modifies e`head, e`tail, e`len, e`Nodes, e.Nodes`prev, e.Nodes`next
      ensures Valid() && Abs() == old(Abs())[e.key := Without(old(e.Nodes), k)]
    {
      RemoveWaiter(e, w, k);
      OneQueueChanged(e);
    }

    /** Settles a waiter that is not keeping the key. A withdrawn one never
        touches e, which the pool may since have given to another key. */
    method Leave(e: WaitQ, w: Waiter, woken: bool, ghost k: nat)
      requires Valid()
      requires w.state != Withdrawn ==> e in entries && Live(e)
      requires w.state == Waiting ==> k < |e.Nodes| && e.Nodes[k] == w
      requires w.state != Waiting ==> w !in Waiters() && (woken || w.ready == 1)
      modifies this`m, this`pool, entries, Waiters(), w`ready
      ensures Valid()
      ensures old(w.state) == Waiting ==> Abs() == old(Abs())[old(e.key) := Without(old(e.Nodes), k)]
      ensures old(w.state) == Granted ==> Abs() == Pass(old(Abs()), old(e.key))
      ensures old(w.state) == Withdrawn ==> Abs() == old(Abs())
    {
      if w.state == Waiting {
        Dequeue(e, w, k);
      } else {
        if !woken {
          TakeToken(w);
        }
        if w.state == Granted {
          HandOff(e);
        }
      }
    }

    method TakeToken(w: Waiter)
      requires Valid() && w !in Waiters() && w.ready == 1
      modifies w`ready
      ensures Valid() && Abs() == old(Abs()) && Waiters() == old(Waiters())
    {
      w.ready := w.ready - 1;
      assert AllSound() by {
        forall f | f in entries
          ensures Sound(f)
        {
          assert old(Sound(f));
          assert forall i :: 0 <= i < |f.Nodes| ==> f.Nodes[i] in Waiters();
        }
      }
    }

    /** Withdraws every waiter for key k; those already withdrawn stay so. */
    method Empty(k: string, e: WaitQ, ghost done: set<Waiter>)
      requires Valid() && k in m && m[k] == e
      requires forall w :: w in done ==> w.home != e && Gone(w)
      modifies e`head, e`tail, e`len, e`Nodes, e`Woken, e.Nodes
      ensures Valid() && e.Nodes == []
      ensures forall j :: j in m && j != k ==> m[j].Nodes == old(m[j].Nodes)
      ensures forall w :: w in done || w in old(e.Nodes) ==> Gone(w)
    {
      assert forall j :: j in m && j != k ==> m[j] != e;
      assert Sound(e);
      assert forall w :: w in done ==> w !in e.Nodes;
      EmptyQueue(e);
    }

    /** Woken by close, its token still to be received. */
    ghost predicate Gone(w: Waiter)
      reads w
    {
      w.state == Withdrawn && w.ready == 1
    }

    method EmptyQueue(e: WaitQ)
      requires AllSound() && e in entries
      modifies e`head, e`tail, e`len, e`Nodes, e`Woken, e.Nodes
      ensures AllSound() && e.Nodes == []
      ensures forall w :: w in old(e.Nodes) ==> w.state == Withdrawn && w.ready == 1
    {
      assert Sound(e);
      forall f, i | f in entries && f != e && 0 <= i < |f.Nodes|
        ensures f.Nodes[i] !in e.Nodes
      {
        assert Sound(f);
      }
      assert forall f :: f in entries ==> Sound(f);
      e.CloseAll();
    }

    /** Withdraws every key waiter, the entries in any order, and refuses new
        ones; holders keep their keys. */
    method Close()
      requires Valid()
      modifies this`closed, entries, Waiters()
      ensures Valid() && closed
      ensures forall k :: k in m ==> m[k].Nodes == []
      ensures forall w :: w in Behind(old(Abs()), m.Keys) ==> Gone(w)
    {
      closed := true;
      Empties(m.Keys, Waiters());
      assert m.Keys - {} == m.Keys;
    }

    /** Of these keys all but todo are cleared, and their waiters withdrawn. */
    ghost predicate Clearing(keys: set<string>, todo: set<string>, was: Queues)
      reads this`m, m.Values`Nodes, Behind(was, keys)
    {
      && todo <= keys <= m.Keys && was.Keys == m.Keys && Homed(was)
      && (forall k :: k in todo ==> m[k].Nodes == was[k])
      && (forall k :: k in keys && k !in todo ==> m[k].Nodes == [])
      && (forall w :: w in Behind(was, keys - todo) ==> Gone(w))
    }

    /** The loop of close, over the entries in any order. */
    method Empties(keys: set<string>, ghost all: set<Waiter>)
      requires Valid() && keys <= m.Keys
      requires forall k, w :: k in keys && w in m[k].Nodes ==> w in all
      modifies entries, all
      ensures Valid()
      ensures Clearing(keys, {}, old(Abs()))
    {
      var todo := keys;
      HomesAreKept();
      assert keys - todo == {};
      while todo != {}
        invariant Valid() && Clearing(keys, todo, old(Abs()))
        decreases todo
      {
        var k :| k in todo;
        EmptyNext(k, m[k], keys, todo, old(Abs()));
        todo := todo - {k};
      }
    }

    method EmptyNext(k: string, e: WaitQ, ghost keys: set<string>, ghost todo: set<string>, ghost was: Queues)
      requires Valid() && Clearing(keys, todo, was) && k in todo && m[k] == e
      modifies e`head, e`tail, e`len, e`Nodes, e`Woken, e.Nodes
      ensures Valid() && Clearing(keys, todo - {k}, was)
    {
      ghost var done := Behind(was, keys - todo);
      BehindOthers(was, keys - todo, k);
      Empty(k, e, done);
      NowBehind(was, keys, todo, k);
    }

    /** Clearing one key more adds those behind it to those withdrawn. */
    lemma NowBehind(was: Queues, keys: set<string>, todo: set<string>, k: string)
      requires todo <= keys <= was.Keys && k in todo
      ensures Behind(was, keys - (todo - {k})) == Behind(was, keys - todo) + set w | w in was[k]
    {
      assert keys - (todo - {k}) == keys - todo + {k};
    }

    lemma BehindOthers(was: Queues, ks: set<string>, k: string)
      requires Placed() && Homed(was) && ks <= was.Keys && k !in ks && k in was
      ensures forall w :: w in Behind(was, ks) ==> w.home != m[k]
      ensures Behind(was, ks + {k}) == Behind(was, ks) + set w | w in was[k]
    {
    }

    /** Every waiter listed belongs to its key's entry. */
    ghost predicate Homed(was: Queues)
      reads this`m
    {
      was.Keys <= m.Keys && forall k, w :: k in was && w in was[k] ==> w.home == m[k]
    }

    /** A waiter belongs to one queue for life. */
    lemma HomesAreKept()
      requires Valid()
      ensures Homed(Abs())
    {
      forall k, w | k in m && w in m[k].Nodes
        ensures w.home == m[k]
      {
        assert Sound(m[k]);
      }
    }
  }
}

/** The in-place locker does to its queues what the reference does to its own. */
module KeyLockerRefinement {
  import opened Sequences
  import opened WaitQueue
  import opened KeyLockers
  import K = Keys

  function Named(q: seq<Waiter>, id: Waiter -> int): seq<int> {
    seq(|q|, i requires 0 <= i < |q| => id(q[i]))
  }

  /** The same keys are held, with the same callers behind each holder. */
  predicate Like(qs: Queues, t: K.Table, id: Waiter -> int) {
    qs.Keys == t.Keys && forall k :: k in qs ==> t[k].queue == Named(qs[k], id)
  }

  lemma TakingAgrees(qs: Queues, t: K.Table, id: Waiter -> int, key: string, holder: int)
    requires Like(qs, t, id)
    ensures K.Acquire(t, holder, key).1 <==> key !in qs
    ensures key !in qs ==> Like(qs[key := []], K.Acquire(t, holder, key).0, id)
  {
  }

  lemma QueueingAgrees(qs: Queues, t: K.Table, id: Waiter -> int, key: string, w: Waiter)
    requires Like(qs, t, id) && key in qs
    ensures Like(qs[key := qs[key] + [w]], K.Acquire(t, id(w), key).0, id)
  {
    assert Named(qs[key] + [w], id) == Named(qs[key], id) + [id(w)];
  }

  lemma PassingAgrees(qs: Queues, t: K.Table, id: Waiter -> int, key: string)
    requires Like(qs, t, id) && key in qs
    ensures Like(Pass(qs, key), K.Release(t, key).0, id)
    ensures K.Release(t, key).1 == if qs[key] != [] then id(qs[key][0]) else -1
  {
    if qs[key] != [] {
      assert Named(qs[key][1..], id) == Named(qs[key], id)[1..];
    }
  }

  /** A leaving waiter goes from both queues, if its name is its own. */
  lemma LeavingAgrees(qs: Queues, t: K.Table, id: Waiter -> int, key: string, k: nat)
    requires Like(qs, t, id) && key in qs && k < |qs[key]|
    requires forall j :: 0 <= j < |qs[key]| && j != k ==> id(qs[key][j]) != id(qs[key][k])
    ensures Like(qs[key := Without(qs[key], k)], K.Cancel(t, id(qs[key][k]), key), id)
  {
    var q := t[key].queue;
    var at := IndexOf(q, id(qs[key][k]));
    assert q[k] == id(qs[key][k]);
    assert at == k;
    assert Named(Without(qs[key], k), id) == Without(q, k);
  }
}
