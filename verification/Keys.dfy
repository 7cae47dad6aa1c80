/** The lab's reference key locker, and the runtime's locker as its refinement. */
module Keys {
  import opened Sequences

  datatype Entry = Entry(holder: int, queue: seq<int>)

  type Table = map<string, Entry>

  function Acquire(t: Table, id: int, key: string): (Table, bool) {
    if key in t then (t[key := t[key].(queue := t[key].queue + [id])], false)
    else (t[key := Entry(id, [])], true)
  }

  /** The head waiter becomes the holder, or the key becomes free (-1). */
  function Release(t: Table, key: string): (Table, int)
    requires key in t
  {
    var e := t[key];
    if e.queue == [] then (t - {key}, -1)
    else (t[key := Entry(e.queue[0], e.queue[1..])], e.queue[0])
  }

  function Cancel(t: Table, id: int, key: string): Table
    requires key in t
  {
    var q := t[key].queue;
    var k := IndexOf(q, id);
    if k == |q| then t else t[key := t[key].(queue := Without(q, k))]
  }

  class KeyLock {
    var entries: Table

    constructor ()
      ensures entries == map[]
    {
      entries := map[];
    }

    predicate Held(key: string)
      reads this
    {
      key in entries
    }

    method Take(id: int, key: string) returns (ok: bool)
      modifies this
      ensures (entries, ok) == Acquire(old(entries), id, key)
    {
      if key in entries {
        var e := entries[key];
        entries := entries[key := e.(queue := e.queue + [id])];
        return false;
      }
      entries := entries[key := Entry(id, [])];
      return true;
    }

    method Give(key: string) returns (next: int)
      requires Held(key)
      modifies this
      ensures (entries, next) == Release(old(entries), key)
    {
      var e := entries[key];
      if |e.queue| == 0 {
        entries := entries - {key};
        return -1;
      }
      entries := entries[key := Entry(e.queue[0], e.queue[1..])];
      return e.queue[0];
    }

    method Quit(id: int, key: string)
      requires Held(key)
      modifies this
      ensures entries == Cancel(old(entries), id, key)
    {
      var e := entries[key];
      for i := 0 to |e.queue|
        invariant entries == old(entries)
        invariant forall j :: 0 <= j < i ==> e.queue[j] != id
      {
        if e.queue[i] == id {
          assert i == IndexOf(e.queue, id);
          entries := entries[key := e.(queue := Without(e.queue, i))];
          return;
        }
      }
    }
  }
}
