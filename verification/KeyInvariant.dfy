/** Key ownership in the protocol: one holder per key, a map entry exactly
    while its key is held, and no touch of an entry the pool has reused. */
module KeyInvariant {
  import opened Sequences
  import opened Protocol
  import opened Invariant

  /** The entry a call points at is live and serves the call's own key. */
  predicate EntryOk(s: State, c: Call) {
    && c.entry in s.locker.cells
    && c.entry !in s.locker.pool
    && s.locker.cells[c.entry].key == c.key
  }

  predicate MapOk(l: Locker) {
    && (forall k :: k in l.m ==> l.m[k] in l.cells && l.m[k] !in l.pool && l.cells[l.m[k]].key == k)
    && (forall e :: e in l.pool ==> e in l.cells)
    && (forall e :: e in l.cells ==> CellOk(l, e))
  }

  /** A pooled cell is idle; any other is the map's entry for its key. */
  predicate CellOk(l: Locker, e: nat)
    requires e in l.cells
  {
    if e in l.pool then l.cells[e].key == "" && l.cells[e].queue == []
    else l.cells[e].key in l.m && l.m[l.cells[e].key] == e
  }

  predicate OwnerOk(s: State, e: nat)
    requires e in s.locker.cells
  {
    var o := s.locker.cells[e].owner;
    0 <= o < |s.calls| && OwnsKey(s.calls[o]) && s.calls[o].entry == e && s.calls[o].key == s.locker.cells[e].key
  }

  predicate WaiterOk(s: State, e: nat, c: int)
    requires e in s.locker.cells
  {
    0 <= c < |s.calls| && AwaitsKey(s.calls[c]) && s.calls[c].entry == e && s.calls[c].key == s.locker.cells[e].key
  }

  predicate KeyQueueOk(s: State, e: nat)
    requires e in s.locker.cells
  {
    var q := s.locker.cells[e].queue;
    && (forall k :: 0 <= k < |q| ==> WaiterOk(s, e, q[k]))
    && (forall j, k :: 0 <= j < k < |q| ==> q[j] != q[k])
  }

  /** gap is the entry whose owner is just leaving it, or -1. */
  predicate EntriesOk(s: State, gap: int) {
    forall e :: e in s.locker.cells ==> KeyQueueOk(s, e) && (e !in s.locker.pool && e != gap ==> OwnerOk(s, e))
  }

  predicate HolderOk(s: State, c: nat, gap: int)
    requires c < |s.calls|
  {
    EntryOk(s, s.calls[c]) && s.calls[c].entry != gap && s.locker.cells[s.calls[c].entry].owner == c
  }

  predicate QueuerOk(s: State, c: nat)
    requires c < |s.calls|
  {
    EntryOk(s, s.calls[c]) && c in s.locker.cells[s.calls[c].entry].queue
  }

  predicate CallersOk(s: State, gap: int) {
    && (forall c: nat {:trigger HolderOk(s, c, gap)} :: c < |s.calls| && OwnsKey(s.calls[c]) ==> HolderOk(s, c, gap))
    && (forall c: nat {:trigger QueuerOk(s, c)} :: c < |s.calls| && AwaitsKey(s.calls[c]) ==> QueuerOk(s, c))
  }

  predicate ClosedOk(l: Locker) {
    l.closed ==> forall e :: e in l.cells ==> l.cells[e].queue == []
  }

  predicate Keyed(s: State, gap: int) {
    MapOk(s.locker) && EntriesOk(s, gap) && CallersOk(s, gap) && ClosedOk(s.locker)
  }

  /** Nothing the key locker cares about differs between x and y. */
  predicate KeyQuiet(x: Call, y: Call) {
    x.key == y.key && x.entry == y.entry && OwnsKey(x) == OwnsKey(y) && AwaitsKey(x) == AwaitsKey(y)
  }

  lemma KeyQuietMoves(s: State, t: State, gap: int)
    requires Keyed(s, gap) && t.locker == s.locker && |t.calls| == |s.calls|
    requires forall i :: 0 <= i < |s.calls| ==> KeyQuiet(s.calls[i], t.calls[i])
    ensures Keyed(t, gap)
  {
    forall e | e in t.locker.cells
      ensures KeyQueueOk(t, e) && (e !in t.locker.pool && e != gap ==> OwnerOk(t, e))
    {
      assert KeyQueueOk(s, e);
      forall k | 0 <= k < |t.locker.cells[e].queue|
        ensures WaiterOk(t, e, t.locker.cells[e].queue[k])
      {
        assert WaiterOk(s, e, s.locker.cells[e].queue[k]);
      }
      assert e !in t.locker.pool && e != gap ==> OwnerOk(s, e);
    }
    forall d: nat | d < |t.calls|
      ensures OwnsKey(t.calls[d]) ==> HolderOk(t, d, gap)
      ensures AwaitsKey(t.calls[d]) ==> QueuerOk(t, d)
    {
      assert KeyQuiet(s.calls[d], t.calls[d]);
      assert OwnsKey(s.calls[d]) ==> HolderOk(s, d, gap);
      assert AwaitsKey(s.calls[d]) ==> QueuerOk(s, d);
    }
  }

  /** Queues and owners of untouched entries carry over. */
  lemma OtherEntry(s: State, t: State, c: nat, f: nat, gap: int)
    requires Keyed(s, gap) && f in s.locker.cells && f in t.locker.cells && t.locker.cells[f] == s.locker.cells[f]
    requires c < |s.calls| && c < |t.calls| && t.calls == s.calls[c := t.calls[c]]
    requires s.calls[c].entry == f ==> !OwnsKey(s.calls[c]) && !AwaitsKey(s.calls[c])
    ensures KeyQueueOk(t, f)
    ensures f !in s.locker.pool && f != gap ==> OwnerOk(t, f)
  {
    assert KeyQueueOk(s, f);
    forall k | 0 <= k < |t.locker.cells[f].queue|
      ensures WaiterOk(t, f, t.locker.cells[f].queue[k])
    {
      assert WaiterOk(s, f, s.locker.cells[f].queue[k]);
    }
    if f !in s.locker.pool && f != gap {
      assert OwnerOk(s, f);
    }
  }

  // ---------- lock ----------

  /** A free key is taken: its entry comes from the pool or is new. */
  lemma TakeKeepsKeyed(s: State, c: nat, e: nat)
    requires Keyed(s, -1) && c < |s.calls| && s.calls[c].pc.Locking? && s.calls[c].key != ""
    requires s.calls[c].key !in s.locker.m && (e in s.locker.pool || e !in s.locker.cells)
    ensures Keyed(TakeKeyMove(s, c, e), -1)
  {
    var t := TakeKeyMove(s, c, e);
    assert e in s.locker.cells ==> CellOk(s.locker, e);
    TakeKeepsMap(s.locker, t.locker, s.calls[c].key, e);
    forall f | f in t.locker.cells
      ensures KeyQueueOk(t, f) && (f !in t.locker.pool ==> OwnerOk(t, f))
    {
      if f != e {
        OtherEntry(s, t, c, f, -1);
      }
    }
    forall d: nat | d < |t.calls|
      ensures OwnsKey(t.calls[d]) ==> HolderOk(t, d, -1)
      ensures AwaitsKey(t.calls[d]) ==> QueuerOk(t, d)
    {
      assert OwnsKey(s.calls[d]) ==> HolderOk(s, d, -1);
      assert AwaitsKey(s.calls[d]) ==> QueuerOk(s, d);
    }
  }

  lemma TakeKeepsMap(l: Locker, t: Locker, key: string, e: nat)
    requires MapOk(l) && ClosedOk(l) && key !in l.m && (e in l.pool || e !in l.cells)
    requires t.m == l.m[key := e] && t.pool == l.pool - {e} && t.closed == l.closed && e in t.cells
    requires t.cells == l.cells[e := t.cells[e]] && t.cells[e].key == key && t.cells[e].queue == []
    ensures MapOk(t) && ClosedOk(t)
  {
    forall f | f in t.cells
      ensures CellOk(t, f)
    {
      assert f in l.cells ==> CellOk(l, f);
    }
  }

  lemma QueueKeepsKeyed(s: State, c: nat, e: nat)
    requires Keyed(s, -1) && c < |s.calls| && s.calls[c].pc.Locking? && s.calls[c].key != ""
    requires s.calls[c].key in s.locker.m && e == s.locker.m[s.calls[c].key] && !s.locker.closed
    ensures Keyed(QueueKeyMove(s, c, e), -1)
  {
    NewQueueKeepsMap(s.locker, e, s.locker.cells[e].queue + [c]);
    QueueKeepsEntries(s, c, e);
    QueueKeepsCallers(s, c, e);
  }

  lemma QueueKeepsEntries(s: State, c: nat, e: nat)
    requires Keyed(s, -1) && c < |s.calls| && s.calls[c].pc.Locking? && s.calls[c].key != ""
    requires s.calls[c].key in s.locker.m && e == s.locker.m[s.calls[c].key]
    ensures EntriesOk(QueueKeyMove(s, c, e), -1)
  {
    var t := QueueKeyMove(s, c, e);
    forall f | f in t.locker.cells
      ensures KeyQueueOk(t, f) && (f !in t.locker.pool ==> OwnerOk(t, f))
    {
      if f != e {
        OtherEntry(s, t, c, f, -1);
      } else {
        QueueGrows(s, t, c, e);
      }
    }
  }

  lemma QueueKeepsCallers(s: State, c: nat, e: nat)
    requires MapOk(s.locker) && CallersOk(s, -1) && c < |s.calls| && s.calls[c].pc.Locking? && s.calls[c].key != ""
    requires s.calls[c].key in s.locker.m && e == s.locker.m[s.calls[c].key]
    ensures CallersOk(QueueKeyMove(s, c, e), -1)
  {
    var t := QueueKeyMove(s, c, e);
    forall d: nat | d < |t.calls|
      ensures OwnsKey(t.calls[d]) ==> HolderOk(t, d, -1)
      ensures AwaitsKey(t.calls[d]) ==> QueuerOk(t, d)
    {
      assert OwnsKey(s.calls[d]) ==> HolderOk(s, d, -1);
      assert AwaitsKey(s.calls[d]) ==> QueuerOk(s, d);
    }
  }

  /** Only the queue of a live entry changes. */
  lemma NewQueueKeepsMap(l: Locker, e: nat, q: seq<int>)
    requires MapOk(l) && e in l.cells && e !in l.pool
    ensures MapOk(l.(cells := l.cells[e := l.cells[e].(queue := q)]))
  {
    var t := l.(cells := l.cells[e := l.cells[e].(queue := q)]);
    forall f | f in t.cells
      ensures CellOk(t, f)
    {
      assert CellOk(l, f);
    }
  }

  lemma QueueGrows(s: State, t: State, c: nat, e: nat)
    requires Keyed(s, -1) && c < |s.calls| && s.calls[c].pc.Locking? && s.calls[c].key != ""
    requires s.calls[c].key in s.locker.m && e == s.locker.m[s.calls[c].key]
    requires t == QueueKeyMove(s, c, e)
    ensures KeyQueueOk(t, e) && OwnerOk(t, e)
  {
    var q, q' := s.locker.cells[e].queue, t.locker.cells[e].queue;
    assert KeyQueueOk(s, e) && OwnerOk(s, e);
    forall k | 0 <= k < |q'|
      ensures WaiterOk(t, e, q'[k])
      ensures k < |q| ==> q'[k] != c
    {
      if k < |q| {
        assert q'[k] == q[k] && WaiterOk(s, e, q[k]);
      }
    }
  }

  // ---------- leave and unlock ----------

  lemma FindsItselfByKey(s: State, c: nat, gap: int)
    requires Keyed(s, gap) && c < |s.calls| && AwaitsKey(s.calls[c])
    ensures s.calls[c].entry in s.locker.cells
    ensures var q := s.locker.cells[s.calls[c].entry].queue; IndexOf(q, c) < |q|
  {
    assert QueuerOk(s, c);
  }

  lemma DequeueKeepsKeyed(s: State, c: nat, k: nat)
    requires Keyed(s, -1) && c < |s.calls| && AwaitsKey(s.calls[c])
    requires s.calls[c].entry in s.locker.cells
    requires k < |s.locker.cells[s.calls[c].entry].queue| && s.locker.cells[s.calls[c].entry].queue[k] == c
    ensures Keyed(DequeueKeyMove(s, c, k), -1)
  {
    var t := DequeueKeyMove(s, c, k);
    var e := s.calls[c].entry;
    assert QueuerOk(s, c);
    NewQueueKeepsMap(s.locker, e, t.locker.cells[e].queue);
    forall f | f in t.locker.cells
      ensures KeyQueueOk(t, f) && (f !in t.locker.pool ==> OwnerOk(t, f))
    {
      if f != e {
        OtherEntry(s, t, c, f, -1);
      } else {
        QueueShrinks(s, c, k);
      }
    }
    forall d: nat | d < |t.calls|
      ensures OwnsKey(t.calls[d]) ==> HolderOk(t, d, -1)
      ensures AwaitsKey(t.calls[d]) ==> QueuerOk(t, d)
    {
      assert OwnsKey(s.calls[d]) ==> HolderOk(s, d, -1);
      assert AwaitsKey(s.calls[d]) ==> QueuerOk(s, d);
      if AwaitsKey(t.calls[d]) && t.calls[d].entry == e {
        StaysIn(s.locker.cells[e].queue, k, d);
      }
    }
  }

  lemma QueueShrinks(s: State, c: nat, k: nat)
    requires Keyed(s, -1) && c < |s.calls| && AwaitsKey(s.calls[c]) && s.calls[c].entry in s.locker.cells
    requires k < |s.locker.cells[s.calls[c].entry].queue| && s.locker.cells[s.calls[c].entry].queue[k] == c
    ensures var t := DequeueKeyMove(s, c, k);
            KeyQueueOk(t, s.calls[c].entry) && OwnerOk(t, s.calls[c].entry)
  {
    var t, e := DequeueKeyMove(s, c, k), s.calls[c].entry;
    var q, q' := s.locker.cells[e].queue, t.locker.cells[e].queue;
    assert KeyQueueOk(s, e) && OwnerOk(s, e) && EntryOk(s, s.calls[c]);
    forall j | 0 <= j < |q'|
      ensures WaiterOk(t, e, q'[j])
    {
      assert q'[j] == q[if j < k then j else j + 1] && WaiterOk(s, e, q'[j]);
    }
  }

  /** A holder steps off its key; the entry is in transit until handed off. */
  lemma StepOffKeepsKeyed(s: State, t: State, c: nat)
    requires Keyed(s, -1) && t.locker == s.locker
    requires c < |s.calls| && c < |t.calls| && t.calls == s.calls[c := t.calls[c]]
    requires OwnsKey(s.calls[c]) && !OwnsKey(t.calls[c]) && !AwaitsKey(t.calls[c])
    ensures Keyed(t, s.calls[c].entry)
    ensures EntryOk(s, s.calls[c])
  {
    forall f | f in t.locker.cells
      ensures KeyQueueOk(t, f) && (f !in t.locker.pool && f != s.calls[c].entry ==> OwnerOk(t, f))
    {
      assert KeyQueueOk(s, f);
      forall k | 0 <= k < |t.locker.cells[f].queue|
        ensures WaiterOk(t, f, t.locker.cells[f].queue[k])
      {
        assert WaiterOk(s, f, s.locker.cells[f].queue[k]);
      }
      if f !in t.locker.pool && f != s.calls[c].entry {
        assert OwnerOk(s, f);
      }
    }
    assert HolderOk(s, c, -1);
    forall d: nat | d < |t.calls|
      ensures OwnsKey(t.calls[d]) ==> HolderOk(t, d, s.calls[c].entry)
      ensures AwaitsKey(t.calls[d]) ==> QueuerOk(t, d)
    {
      assert OwnsKey(s.calls[d]) ==> HolderOk(s, d, -1);
      assert AwaitsKey(s.calls[d]) ==> QueuerOk(s, d);
    }
  }
  // ---------- hand-off ----------

  lemma HandOffKeepsKeyed(s: State, e: nat)
    requires Keyed(s, e) && e in s.locker.cells && e !in s.locker.pool
    ensures Keyed(HandOff(s, e), -1)
  {
    if s.locker.cells[e].queue != [] {
      PassKeepsKeyed(s, e);
    } else {
      RetireKeepsKeyed(s, e);
    }
  }

  lemma PassKeepsKeyed(s: State, e: nat)
    requires Keyed(s, e) && e in s.locker.cells && e !in s.locker.pool && s.locker.cells[e].queue != []
    ensures Keyed(HandOff(s, e), -1)
  {
    var t := HandOff(s, e);
    var q := s.locker.cells[e].queue;
    var w := q[0];
    assert KeyQueueOk(s, e) && WaiterOk(s, e, w);
    PassKeepsMap(s.locker, e, w);
    forall f | f in t.locker.cells
      ensures KeyQueueOk(t, f) && (f !in t.locker.pool ==> OwnerOk(t, f))
    {
      assert KeyQueueOk(s, f);
      forall k | 0 <= k < |t.locker.cells[f].queue|
        ensures WaiterOk(t, f, t.locker.cells[f].queue[k])
      {
        assert WaiterOk(s, f, s.locker.cells[f].queue[if f == e then k + 1 else k]);
      }
      assert f !in s.locker.pool && f != e ==> OwnerOk(s, f);
    }
    forall d: nat | d < |t.calls|
      ensures OwnsKey(t.calls[d]) ==> HolderOk(t, d, -1)
      ensures AwaitsKey(t.calls[d]) ==> QueuerOk(t, d)
    {
      assert OwnsKey(s.calls[d]) ==> HolderOk(s, d, e);
      assert AwaitsKey(s.calls[d]) ==> QueuerOk(s, d);
    }
  }

  lemma PassKeepsMap(l: Locker, e: nat, w: int)
    requires MapOk(l) && ClosedOk(l) && e in l.cells && e !in l.pool && l.cells[e].queue != []
    ensures var t := l.(cells := l.cells[e := l.cells[e].(queue := l.cells[e].queue[1..], owner := w)]);
            MapOk(t) && ClosedOk(t)
  {
    var t := l.(cells := l.cells[e := l.cells[e].(queue := l.cells[e].queue[1..], owner := w)]);
    forall f | f in t.cells
      ensures CellOk(t, f)
    {
      assert CellOk(l, f);
    }
  }

  lemma RetireKeepsKeyed(s: State, e: nat)
    requires Keyed(s, e) && e in s.locker.cells && e !in s.locker.pool && s.locker.cells[e].queue == []
    ensures Keyed(HandOff(s, e), -1)
  {
    var t := HandOff(s, e);
    forall f | f in t.locker.cells
      ensures KeyQueueOk(t, f) && CellOk(t.locker, f) && (f !in t.locker.pool ==> OwnerOk(t, f))
    {
      assert KeyQueueOk(s, f) && CellOk(s.locker, f) && CellOk(s.locker, e);
      forall k | 0 <= k < |t.locker.cells[f].queue|
        ensures WaiterOk(t, f, t.locker.cells[f].queue[k])
      {
        assert WaiterOk(s, f, s.locker.cells[f].queue[k]);
      }
      assert f !in s.locker.pool && f != e ==> OwnerOk(s, f);
    }
    forall d: nat | d < |t.calls|
      ensures OwnsKey(t.calls[d]) ==> HolderOk(t, d, -1)
      ensures AwaitsKey(t.calls[d]) ==> QueuerOk(t, d)
    {
      assert OwnsKey(s.calls[d]) ==> HolderOk(s, d, e);
      assert AwaitsKey(s.calls[d]) ==> QueuerOk(s, d);
    }
  }

  // ---------- close ----------

  /** The calls close withdraws are exactly those waiting for a key. */
  lemma KeyWaitersAreTheAwaiting(s: State, c: int)
    requires Keyed(s, -1)
    ensures c in KeyWaiters(s.locker) <==> 0 <= c < |s.calls| && AwaitsKey(s.calls[c])
  {
    if c in KeyWaiters(s.locker) {
      var k :| k in s.locker.m && s.locker.m[k] in s.locker.cells && c in s.locker.cells[s.locker.m[k]].queue;
      var e := s.locker.m[k];
      assert KeyQueueOk(s, e);
      var j :| 0 <= j < |s.locker.cells[e].queue| && s.locker.cells[e].queue[j] == c;
      assert WaiterOk(s, e, s.locker.cells[e].queue[j]);
    }
    if 0 <= c < |s.calls| && AwaitsKey(s.calls[c]) {
      assert QueuerOk(s, c);
      var e := s.calls[c].entry;
      assert CellOk(s.locker, e);
      var k := s.locker.cells[e].key;
      assert k in s.locker.m && s.locker.m[k] == e;
    }
  }

  lemma WithdrawAllShape(s: State, c: nat)
    requires Keyed(s, -1) && c < |s.calls|
    ensures var t := WithdrawAllKeys(s);
            |t.calls| == |s.calls|
            && t.calls[c] ==
               if AwaitsKey(s.calls[c]) then s.calls[c].(state := Withdrawn, token := true) else s.calls[c]
  {
    KeyWaitersAreTheAwaiting(s, c);
  }

  lemma WithdrawAllKeepsKeyed(s: State)
    requires Keyed(s, -1)
    ensures Keyed(WithdrawAllKeys(s), -1)
  {
    var t := WithdrawAllKeys(s);
    forall f | f in t.locker.cells
      ensures t.locker.cells[f].queue == [] && CellOk(t.locker, f)
    {
      assert CellOk(s.locker, f);
    }
    forall f | f in t.locker.cells
      ensures KeyQueueOk(t, f) && (f !in t.locker.pool ==> OwnerOk(t, f))
    {
      if f !in s.locker.pool {
        assert OwnerOk(s, f);
        WithdrawAllShape(s, s.locker.cells[f].owner);
      }
    }
    forall d: nat | d < |t.calls|
      ensures OwnsKey(t.calls[d]) ==> HolderOk(t, d, -1)
      ensures AwaitsKey(t.calls[d]) ==> QueuerOk(t, d)
    {
      WithdrawAllShape(s, d);
      assert OwnsKey(s.calls[d]) ==> HolderOk(s, d, -1);
    }
  }
}
