/** The lab's reference semaphore, and the runtime's budget as its refinement. */
module Sems {
  import opened Sequences
  import opened Budgets

  const TWO63: int := 0x8000_0000_0000_0000
  const TWO64: int := 0x1_0000_0000_0000_0000

  /** The sum x of two int64 values, wrapped around. */
  function Wrap(x: int): int {
    if x > MAX_INT64 then x - TWO64
    else if x < -TWO63 then x + TWO64
    else x
  }

  datatype Semaphore = Semaphore(cap: int, used: int, queue: seq<Ticket<int>>) {

    function TryAcquire(n: int): (Semaphore, bool) {
      if |queue| > 0 || Wrap(used + n) > cap then (this, false)
      else (this.(used := Wrap(used + n)), true)
    }

    function Acquire(id: int, n: int): (Semaphore, bool) {
      if TryAcquire(n).1 then TryAcquire(n)
      else (this.(queue := queue + [Ticket(id, n)]), false)
    }

    predicate HeadFits() {
      queue != [] && Wrap(used + queue[0].n) <= cap
    }

    function Pop(): Semaphore
      requires queue != []
    {
      this.(used := Wrap(used + queue[0].n), queue := queue[1..])
    }

    /** Serves the queue; also lists who was granted, in order. */
    function Grant(): (Semaphore, seq<int>)
      decreases |queue|
    {
      if HeadFits() then
        var (t, ids) := Pop().Grant();
        (t, [queue[0].id] + ids)
      else (this, [])
    }

    function Release(n: int): (Semaphore, seq<int>) {
      this.(used := used - n).Grant()
    }

    function Cancel(id: int): (Semaphore, seq<int>) {
      var k := Find(queue, id);
      if k == |queue| then (this, [])
      else
        var t := this.(queue := Without(queue, k));
        if k == 0 then t.Grant() else (t, [])
    }
  }

  class Sem {
    var cap: int
    var used: int
    var queue: seq<Ticket<int>>

    function Abs(): Semaphore
      reads this
    {
      Semaphore(cap, used, queue)
    }

    constructor (cap: int)
      ensures Abs() == Semaphore(cap, 0, [])
    {
      this.cap, used, queue := cap, 0, [];
    }

    method TryAcquire(n: int) returns (ok: bool)
      modifies this
      ensures (Abs(), ok) == old(Abs()).TryAcquire(n)
    {
      if |queue| > 0 || Wrap(used + n) > cap {
        return false;
      }
      used := Wrap(used + n);
      return true;
    }

    method Acquire(id: int, n: int) returns (ok: bool)
      modifies this
      ensures (Abs(), ok) == old(Abs()).Acquire(id, n)
    {
      ok := TryAcquire(n);
      if !ok {
        queue := queue + [Ticket(id, n)];
      }
    }

    /** Panics unless n units are in use. */
    method Release(n: int) returns (granted: seq<int>)
      requires n <= used
      modifies this
      ensures (Abs(), granted) == old(Abs()).Release(n)
    {
      used := used - n;
      granted := Grant();
    }

    method Cancel(id: int) returns (granted: seq<int>)
      modifies this
      ensures (Abs(), granted) == old(Abs()).Cancel(id)
    {
      for i := 0 to |queue|
        invariant Abs() == old(Abs())
        invariant forall j :: 0 <= j < i ==> queue[j].id != id
      {
        if queue[i].id == id {
          assert i == Find(queue, id);
          queue := Without(queue, i);
          granted := [];
          if i == 0 {
            granted := Grant();
          }
          return;
        }
      }
      granted := [];
    }

    method Grant() returns (granted: seq<int>)
      modifies this
      ensures (Abs(), granted) == old(Abs()).Grant()
    {
      granted := [];
      assert [] + Abs().Grant().1 == Abs().Grant().1;
      while |queue| > 0 && Wrap(used + queue[0].n) <= cap
        invariant old(Abs()).Grant() == (Abs().Grant().0, granted + Abs().Grant().1)
        decreases |queue|
      {
        ghost var rest := Abs().Pop().Grant().1;
        assert (granted + [queue[0].id]) + rest == granted + ([queue[0].id] + rest);
        used, granted, queue := Wrap(used + queue[0].n), granted + [queue[0].id], queue[1..];
      }
      assert granted + [] == granted;
    }
  }

  /** A budget as the reference sees it. */
  function View(b: Budget<int>): Semaphore {
    Semaphore(b.size, b.cur, b.queue)
  }

  /** The reference test overflows where the runtime's does not; they agree on
      a request exactly when the sum stays within int64. */
  lemma TestsAgreeUnlessTheSumOverflows(b: Budget<int>, n: int)
    requires Settled(b) && b.queue == [] && 0 < n <= b.size
    ensures View(b).TryAcquire(n).1 == Fits(b, n) <==> b.cur + n <= MAX_INT64
  {
    if b.cur + n > MAX_INT64 {
      assert Wrap(b.cur + n) == b.cur + n - TWO64;
    } else {
      assert Wrap(b.cur + n) == b.cur + n;
    }
  }

  /** Small enough that no two claims overflow. */
  predicate Small(b: Budget<int>) {
    2 * b.size <= MAX_INT64
  }

  lemma {:induction false} GrantsAgree(b: Budget<int>)
    requires Sane(b) && Small(b)
    ensures GrantCount(b) <= |b.queue|
    ensures View(b).Grant().0 == View(Budgets.Grant(b))
    ensures View(b).Grant().1 == Ids(b.queue[..GrantCount(b)])
    decreases |b.queue|
  {
    GrantServesAPrefix(b);
    if b.queue != [] {
      assert Wrap(b.cur + b.queue[0].n) == b.cur + b.queue[0].n;
      if Budgets.HeadFits(b) {
        GrantsAgree(GrantHead(b));
        assert View(b).Pop() == View(GrantHead(b));
        assert b.queue[..GrantCount(b)][1..] == b.queue[1..][..GrantCount(b) - 1];
      }
    }
  }

  function Ids(q: seq<Ticket<int>>): seq<int> {
    if q == [] then [] else [q[0].id] + Ids(q[1..])
  }

  /** What can happen to an open budget whose callers are live. */
  datatype Op = Try(n: int) | Acq(id: int, n: int) | Rel(n: int) | Can(id: int)

  /** The decision, and the waiters granted in order. */
  datatype Answer = Answer(ok: bool, granted: seq<int>)

  predicate Legal(b: Budget<int>, op: Op) {
    match op
    case Try(n) => 0 < n <= b.size
    case Acq(_, n) => 0 < n <= b.size
    case Rel(n) => 0 < n <= b.cur
    case Can(_) => true
  }

  function Implementation(b: Budget<int>, op: Op): (Budget<int>, Answer) {
    match op
    case Try(n) => var (c, ok) := Budgets.TryAcquire(b, n); (c, Answer(ok, []))
    case Acq(id, n) => var (c, v) := Budgets.Acquire(b, Ticket(id, n), false); (c, Answer(v == Taken, []))
    case Rel(n) =>
      var c := b.(cur := b.cur - n);
      var k := GrantCount(c);
      (Budgets.Release(b, n), Answer(true, if k <= |b.queue| then Ids(b.queue[..k]) else []))
    case Can(id) =>
      var k := Find(b.queue, id);
      if k == |b.queue| then (b, Answer(true, []))
      else
        var c := b.(queue := Without(b.queue, k));
        var g := GrantCount(c);
        (Budgets.Leave(b, k), Answer(true, if k == 0 && g <= |c.queue| then Ids(c.queue[..g]) else []))
  }

  function Specification(s: Semaphore, op: Op): (Semaphore, Answer) {
    match op
    case Try(n) => var (t, ok) := s.TryAcquire(n); (t, Answer(ok, []))
    case Acq(id, n) => var (t, ok) := s.Acquire(id, n); (t, Answer(ok, []))
    case Rel(n) => var (t, ids) := s.Release(n); (t, Answer(true, ids))
    case Can(id) => var (t, ids) := s.Cancel(id); (t, Answer(true, ids))
  }

  lemma AcquiringSimulates(b: Budget<int>, id: int, n: int)
    requires Settled(b) && Small(b) && !b.closed && 0 < n <= b.size
    ensures var (c, ok) := Budgets.TryAcquire(b, n);
            Settled(c) && c.size == b.size && !c.closed && View(b).TryAcquire(n) == (View(c), ok)
    ensures var (c, v) := Budgets.Acquire(b, Ticket(id, n), false);
            Settled(c) && c.size == b.size && !c.closed && View(b).Acquire(id, n) == (View(c), v == Taken)
  {
    AcquiringStaysSettled(b, Ticket(id, n), false);
  }

  lemma ReleaseSimulates(b: Budget<int>, n: int)
    requires Settled(b) && Small(b) && 0 < n <= b.cur
    ensures var c := b.(cur := b.cur - n); var k := GrantCount(c);
            k <= |b.queue| && View(b).Release(n) == (View(Budgets.Release(b, n)), Ids(b.queue[..k]))
    ensures Budgets.Release(b, n).size == b.size && Budgets.Release(b, n).closed == b.closed
  {
    var c := b.(cur := b.cur - n);
    GrantServesAPrefix(c);
    GrantsAgree(c);
    SyncIsUnseen(Budgets.Grant(c));
    assert View(c) == View(b).(used := View(b).used - n);
  }

  lemma SyncIsUnseen(b: Budget<int>)
    ensures View(Sync(b)) == View(b)
  {
  }

  lemma CancelSimulates(b: Budget<int>, id: int)
    requires Settled(b) && Small(b) && !b.closed
    ensures var (c, a) := Implementation(b, Can(id));
            Settled(c) && c.size == b.size && !c.closed && View(b).Cancel(id) == (View(c), a.granted)
  {
    var k := Find(b.queue, id);
    if k < |b.queue| {
      LeaveStaysSettled(b, k);
      var c := b.(queue := Without(b.queue, k));
      assert Sane(c);
      if k == 0 {
        GrantServesAPrefix(c);
        GrantsAgree(c);
      }
    }
  }

  lemma BudgetSimulatesSem(b: Budget<int>, op: Op)
    requires Settled(b) && Small(b) && !b.closed && Legal(b, op)
    ensures var (c, a) := Implementation(b, op);
            Settled(c) && c.size == b.size && !c.closed && Specification(View(b), op) == (View(c), a)
  {
    match op
    case Try(n) => AcquiringSimulates(b, 0, n);
    case Acq(id, n) => AcquiringSimulates(b, id, n);
    case Rel(n) =>
      ReleaseStaysSettled(b, n);
      ReleaseSimulates(b, n);
    case Can(id) => CancelSimulates(b, id);
  }

  predicate LegalRun(b: Budget<int>, ops: seq<Op>)
    decreases |ops|
  {
    ops == [] || (Legal(b, ops[0]) && LegalRun(Implementation(b, ops[0]).0, ops[1..]))
  }

  function Answers(b: Budget<int>, ops: seq<Op>): seq<Answer>
    decreases |ops|
  {
    if ops == [] then []
    else [Implementation(b, ops[0]).1] + Answers(Implementation(b, ops[0]).0, ops[1..])
  }

  function Expected(s: Semaphore, ops: seq<Op>): seq<Answer>
    decreases |ops|
  {
    if ops == [] then []
    else [Specification(s, ops[0]).1] + Expected(Specification(s, ops[0]).0, ops[1..])
  }

  /** Every run of an open budget gives the reference's decisions and grants
      the same waiters in the same order. */
  lemma {:induction false} BudgetRunsLikeSem(b: Budget<int>, ops: seq<Op>)
    requires Settled(b) && Small(b) && !b.closed && LegalRun(b, ops)
    ensures Answers(b, ops) == Expected(View(b), ops)
    decreases |ops|
  {
    if ops != [] {
      BudgetSimulatesSem(b, ops[0]);
      BudgetRunsLikeSem(Implementation(b, ops[0]).0, ops[1..]);
    }
  }

  /** The exact bound: an idle open budget gives the reference's answers on
      every run of live callers just when no two claims of it can overflow. */
  lemma RunsAgreeExactlyWhenSmall(b: Budget<int>)
    requires Settled(b) && !b.closed && b.cur == 0 && b.queue == []
    ensures (forall ops | LegalRun(b, ops) :: Answers(b, ops) == Expected(View(b), ops)) <==> Small(b)
  {
    if Small(b) {
      forall ops | LegalRun(b, ops)
        ensures Answers(b, ops) == Expected(View(b), ops)
      {
        BudgetRunsLikeSem(b, ops);
      }
    } else {
      TakingItTwiceOverflows(b);
    }
  }

  /** The reference, asked for the whole capacity twice, gives it twice. */
  lemma TakingItTwiceOverflows(b: Budget<int>)
    requires Settled(b) && !b.closed && b.cur == 0 && b.queue == [] && !Small(b)
    ensures var ops := [Acq(0, b.size), Try(b.size)];
            LegalRun(b, ops) && Answers(b, ops) != Expected(View(b), ops)
  {
    var ops := [Acq(0, b.size), Try(b.size)];
    var (c, a) := Implementation(b, ops[0]);
    assert c.cur == b.size && c.full && View(b).Acquire(0, b.size).0 == View(c);
    assert ops[1..] == [Try(b.size)] && ops[1..][1..] == [];
    assert LegalRun(c, ops[1..]) by {
      assert LegalRun(Implementation(c, ops[1]).0, ops[1..][1..]);
    }
    assert Answers(c, ops[1..])[0] == Answer(false, []);
    assert Wrap(b.size + b.size) < 0;
    assert Expected(View(c), ops[1..])[0] == Answer(true, []);
    assert Answers(b, ops)[1] == Answer(false, []) && Expected(View(b), ops)[1] == Answer(true, []);
  }
}
