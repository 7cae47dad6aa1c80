/** The budget semaphore as a value: units in use, a FIFO of tickets, and the
    published `full` hint. Each function is one critical section. */
module Budgets {
  import opened Sequences

  const MAX_INT64: int := 0x7FFF_FFFF_FFFF_FFFF

  datatype Ticket<W> = Ticket(id: W, n: int)

  datatype Budget<W> = Budget(size: int, cur: int, queue: seq<Ticket<W>>, closed: bool, full: bool)

  datatype Verdict = Taken | Refused | Queued

  predicate NothingNow<W>(b: Budget<W>) {
    |b.queue| > 0 || b.closed || b.cur >= b.size
  }

  function Sync<W>(b: Budget<W>): Budget<W> {
    b.(full := NothingNow(b))
  }

  /** Position of id's first ticket, or |q|. */
  function Find(q: seq<Ticket<int>>, id: int): (k: nat)
    ensures k <= |q|
    ensures k < |q| ==> q[k].id == id
    ensures forall i :: 0 <= i < k ==> q[i].id != id
  {
    if q == [] || q[0].id == id then 0 else 1 + Find(q[1..], id)
  }

  predicate InQueue(q: seq<Ticket<int>>, id: int) {
    exists k :: 0 <= k < |q| && q[k].id == id
  }

  predicate Fits<W>(b: Budget<W>, n: int) {
    |b.queue| == 0 && b.size - b.cur >= n
  }

  predicate HeadFits<W>(b: Budget<W>) {
    b.queue != [] && b.size - b.cur >= b.queue[0].n
  }

  function GrantHead<W>(b: Budget<W>): Budget<W>
    requires b.queue != []
  {
    b.(cur := b.cur + b.queue[0].n, queue := b.queue[1..])
  }

  /** How many waiters one pass of the grant loop admits. */
  function GrantCount<W>(b: Budget<W>): nat
    decreases |b.queue|
  {
    if HeadFits(b) then 1 + GrantCount(GrantHead(b)) else 0
  }

  function Grant<W>(b: Budget<W>): Budget<W>
    decreases |b.queue|
  {
    if HeadFits(b) then Grant(GrantHead(b)) else b
  }

  function TryAcquire<W>(b: Budget<W>, n: int): (Budget<W>, bool) {
    if b.full || !Fits(b, n) then (b, false) else (Sync(b.(cur := b.cur + n)), true)
  }

  /** The locked half of a blocking acquire. */
  function Acquire<W>(b: Budget<W>, t: Ticket<W>, ended: bool): (Budget<W>, Verdict) {
    if Fits(b, t.n) then (Sync(b.(cur := b.cur + t.n)), Taken)
    else if b.closed || ended then (b, Refused)
    else (Sync(b.(queue := b.queue + [t])), Queued)
  }

  function Release<W>(b: Budget<W>, n: int): Budget<W> {
    Sync(Grant(b.(cur := b.cur - n)))
  }

  /** A queued waiter at position k gives up. */
  function Leave<W>(b: Budget<W>, k: nat): Budget<W>
    requires k < |b.queue|
  {
    var c := b.(queue := Without(b.queue, k));
    Sync(if k == 0 then Grant(c) else c)
  }

  function Close<W>(b: Budget<W>): Budget<W> {
    Sync(b.(closed := true, queue := []))
  }

  /** Holds even inside a critical section. */
  predicate Sane<W>(b: Budget<W>) {
    && 0 <= b.cur <= b.size <= MAX_INT64
    && 0 < b.size
    && (forall i :: 0 <= i < |b.queue| ==> 0 < b.queue[i].n <= b.size)
    && (b.closed ==> b.queue == [])
  }

  /** Holds at every unlock: the hint is exact and a queued head does not fit. */
  predicate Settled<W>(b: Budget<W>) {
    && Sane(b)
    && !HeadFits(b)
    && b.full == NothingNow(b)
  }

  lemma {:induction false} GrantServesAPrefix<W>(b: Budget<W>)
    requires Sane(b)
    ensures GrantCount(b) <= |b.queue|
    ensures Grant(b).queue == b.queue[GrantCount(b)..]
    ensures Grant(b).cur == b.cur + Weight(b.queue[..GrantCount(b)])
    ensures Grant(b) == b.(queue := Grant(b).queue, cur := Grant(b).cur)
    ensures Sane(Grant(b)) && !HeadFits(Grant(b))
    decreases |b.queue|
  {
    if HeadFits(b) {
      GrantServesAPrefix(GrantHead(b));
      var k := GrantCount(b);
      assert b.queue[..k][1..] == b.queue[1..][..k - 1];
    }
  }

  /** Units asked for by a run of tickets. */
  function Weight<W>(q: seq<Ticket<W>>): int {
    if q == [] then 0 else q[0].n + Weight(q[1..])
  }

  /** The serving rule has one solution: the longest prefix of the queue whose
      every ticket fits after the ones before it. */
  lemma {:induction false} GrantIsTheLongestFittingPrefix<W>(b: Budget<W>, k: nat)
    requires Sane(b)
    requires k <= |b.queue|
    ensures k <= GrantCount(b) <==> b.cur + Weight(b.queue[..k]) <= b.size
    decreases |b.queue|
  {
    if k > 0 {
      assert b.queue[..k][1..] == b.queue[1..][..k - 1];
      if HeadFits(b) {
        GrantIsTheLongestFittingPrefix(GrantHead(b), k - 1);
      } else {
        WeightPositive(b.queue[1..][..k - 1]);
      }
    }
  }

  lemma {:induction false} WeightPositive<W>(q: seq<Ticket<W>>)
    requires forall i :: 0 <= i < |q| ==> q[i].n > 0
    ensures Weight(q) >= 0
  {
    if q != [] {
      WeightPositive(q[1..]);
    }
  }

  lemma AcquiringStaysSettled<W>(b: Budget<W>, t: Ticket<W>, ended: bool)
    requires Settled(b)
    requires 0 < t.n <= b.size
    ensures Settled(TryAcquire(b, t.n).0)
    ensures Settled(Acquire(b, t, ended).0)
  {
    var c := b.(queue := b.queue + [t]);
    assert Sane(c) <== !b.closed;
    assert b.queue != [] ==> c.queue[0] == b.queue[0];
  }

  lemma ReleaseStaysSettled<W>(b: Budget<W>, n: int)
    requires Settled(b)
    requires 0 < n <= b.cur
    ensures Settled(Release(b, n))
  {
    GrantServesAPrefix(b.(cur := b.cur - n));
  }

  lemma LeaveStaysSettled<W>(b: Budget<W>, k: nat)
    requires Settled(b)
    requires k < |b.queue|
    ensures Settled(Leave(b, k))
  {
    var c := b.(queue := Without(b.queue, k));
    assert Sane(c);
    if k == 0 {
      GrantServesAPrefix(c);
    } else {
      assert c.queue[0] == b.queue[0];
    }
  }

  /** The lock-free refusal against the locked test: they part exactly when the
      budget is closed with free units that fit. */
  lemma FastRefusalIsExact<W>(b: Budget<W>, n: int)
    requires Settled(b)
    requires 0 < n <= b.size
    ensures (b.full && Fits(b, n)) <==> (b.closed && n <= b.size - b.cur)
    ensures !b.closed ==> TryAcquire(b, n).1 == Fits(b, n)
  {
  }

  /** A blocking acquire still takes free units of a closed budget, where the
      non-blocking one refuses. */
  lemma ClosedBudgetSplitsTheModes(b: Budget<int>)
    requires b == Close(Budget(1, 0, [], false, false))
    ensures !TryAcquire(b, 1).1
    ensures Acquire(b, Ticket(0, 1), false).1 == Taken
  {
  }
}
