/** The in-place resource, its waiters named, does to its budget what the
    reference semaphore does to its own. */
module ResourceRefinement {
  import opened Sequences
  import opened Budgets
  import opened WaitQueue
  import opened Sems

  function Named(q: seq<Ticket<Waiter>>, id: Waiter -> int): (p: seq<Ticket<int>>)
    ensures |p| == |q|
    ensures forall i :: 0 <= i < |q| ==> p[i] == Ticket(id(q[i].id), q[i].n)
  {
    seq(|q|, i requires 0 <= i < |q| => Ticket(id(q[i].id), q[i].n))
  }

  function Renamed(b: Budget<Waiter>, id: Waiter -> int): Budget<int> {
    Budget(b.size, b.cur, Named(b.queue, id), b.closed, b.full)
  }

  lemma SettledByAnyName(b: Budget<Waiter>, id: Waiter -> int)
    requires Settled(b)
    ensures Settled(Renamed(b, id))
  {
    forall i | 0 <= i < |Renamed(b, id).queue|
      ensures 0 < Renamed(b, id).queue[i].n <= b.size
    {
      assert b.queue[i].n == Renamed(b, id).queue[i].n;
    }
  }

  lemma {:induction false} GrantByAnyName(b: Budget<Waiter>, id: Waiter -> int)
    ensures Renamed(Grant(b), id) == Grant(Renamed(b, id)) && GrantCount(b) == GrantCount(Renamed(b, id))
    decreases |b.queue|
  {
    if HeadFits(b) {
      assert Named(b.queue[1..], id) == Named(b.queue, id)[1..];
      GrantByAnyName(GrantHead(b), id);
    }
  }

  /** An immediate request is decided as by the reference. */
  lemma TryingAgrees(b: Budget<Waiter>, id: Waiter -> int, n: int)
    requires Settled(b) && 2 * b.size <= MAX_INT64 && !b.closed && 0 < n <= b.size
    ensures var (c, ok) := Budgets.TryAcquire(b, n);
            View(Renamed(b, id)).TryAcquire(n) == (View(Renamed(c, id)), ok)
  {
    SettledByAnyName(b, id);
    AcquiringSimulates(Renamed(b, id), 0, n);
  }

  /** A live caller is granted or queued as by the reference. */
  lemma AcquiringAgrees(b: Budget<Waiter>, id: Waiter -> int, t: Ticket<Waiter>)
    requires Settled(b) && 2 * b.size <= MAX_INT64 && !b.closed && 0 < t.n <= b.size
    ensures var (c, v) := Budgets.Acquire(b, t, false);
            View(Renamed(b, id)).Acquire(id(t.id), t.n) == (View(Renamed(c, id)), v == Taken)
  {
    SettledByAnyName(b, id);
    AcquiringSimulates(Renamed(b, id), id(t.id), t.n);
    assert Named(b.queue + [t], id) == Named(b.queue, id) + [Ticket(id(t.id), t.n)];
  }

  /** A release grants the same waiters, in the same order. */
  lemma ReleasingAgrees(b: Budget<Waiter>, id: Waiter -> int, n: int)
    requires Settled(b) && 2 * b.size <= MAX_INT64 && 0 < n <= b.cur
    ensures var k := GrantCount(b.(cur := b.cur - n));
            k <= |b.queue| && View(Renamed(b, id)).Release(n)
            == (View(Renamed(Budgets.Release(b, n), id)), Ids(Named(b.queue, id)[..k]))
  {
    SettledByAnyName(b, id);
    ReleaseSimulates(Renamed(b, id), n);
    GrantByAnyName(b.(cur := b.cur - n), id);
  }

  /** A leaving waiter goes from both queues, if its name is its own. */
  lemma LeavingAgrees(b: Budget<Waiter>, id: Waiter -> int, k: nat)
    requires Settled(b) && 2 * b.size <= MAX_INT64 && !b.closed && k < |b.queue|
    requires forall j :: 0 <= j < |b.queue| && j != k ==> id(b.queue[j].id) != id(b.queue[k].id)
    ensures View(Renamed(b, id)).Cancel(id(b.queue[k].id)).0 == View(Renamed(Budgets.Leave(b, k), id))
  {
    var q := Named(b.queue, id);
    SettledByAnyName(b, id);
    assert q[k].id == id(b.queue[k].id);
    assert Find(q, q[k].id) == k;
    CancelSimulates(Renamed(b, id), q[k].id);
    assert Named(Without(b.queue, k), id) == Without(q, k);
    GrantByAnyName(b.(queue := Without(b.queue, k)), id);
  }
}

/** While a budget is open, the machine works it as the reference works its
    semaphore: same decisions, same queue, same units, same grants. */
module BudgetRefinement {
  import opened Sequences
  import opened Claims
  import opened Protocol
  import opened Invariant
  import opened GateInvariant
  import opened Safety
  import opened Progress
  import opened Callers
  import opened Fairness
  import B = Budgets
  import S = Sems

  /** What the reference does for each of a budget's operations. */
  function SemAfter(s: S.Semaphore, op: BudgetOp): S.Semaphore {
    match op
    case Keep => s
    case Grab(n) => s.TryAcquire(n).0
    case Enqueue(t) => s.Acquire(t.id, t.n).0
    case Drop(k) => if k < |s.queue| then s.Cancel(s.queue[k].id).0 else s
    case Return(n) => s.Release(n).0
    case Shut => s.(queue := [])
  }

  /** The reference decides likewise. */
  predicate SemAgrees(s: S.Semaphore, op: BudgetOp) {
    match op
    case Grab(n) => s.TryAcquire(n).1
    case Enqueue(t) => !s.Acquire(t.id, t.n).1
    case _ => true
  }

  lemma OpSimulates(b: B.Budget<int>, op: BudgetOp)
    requires B.Settled(b) && S.Small(b) && !b.closed && CanApply(b, op) && Distinct(b.queue)
    requires op.Grab? ==> 0 < op.n <= b.size
    ensures SemAgrees(S.View(b), op) && S.View(Apply(b, op)) == SemAfter(S.View(b), op)
  {
    match op
    case Grab(n) => S.AcquiringSimulates(b, 0, n);
    case Enqueue(t) => S.AcquiringSimulates(b, t.id, t.n);
    case Drop(k) =>
      S.CancelSimulates(b, b.queue[k].id);
      assert B.Find(b.queue, b.queue[k].id) == k;
    case Return(n) => S.ReleaseSimulates(b, n);
    case _ =>
  }

  lemma GrabsOneClaim(s: State, step: Step, r: string)
    requires Core(s) && Can(s, step) && r in s.budgets && OpOf(s, step, r).Grab?
    ensures 0 < OpOf(s, step, r).n <= s.budgets[r].size
  {
    StepClaimOk(s, step);
  }

  lemma QueueIsDistinct(s: State, r: string)
    requires Core(s) && r in s.budgets
    ensures Distinct(s.budgets[r].queue)
  {
    assert QueueOk(s, r);
  }

  /** Every step but its closing takes an open budget to where the reference
      goes. */
  lemma StepRefinesSem(s: State, step: Step, r: string)
    requires Inv(s) && Can(s, step) && r in s.budgets && S.Small(s.budgets[r]) && !s.budgets[r].closed
    ensures r in Do(s, step).budgets
    ensures SemAgrees(S.View(s.budgets[r]), OpOf(s, step, r))
    ensures S.View(Do(s, step).budgets[r]) == SemAfter(S.View(s.budgets[r]), OpOf(s, step, r))
  {
    StepRefinesBudgets(s, step, r);
    QueueIsDistinct(s, r);
    if OpOf(s, step, r).Grab? {
      GrabsOneClaim(s, step, r);
    }
    assert B.Settled(s.budgets[r]);
    OpSimulates(s.budgets[r], OpOf(s, step, r));
  }

  /** A request gets through just when the reference lets it through; the
      lock-free refusal only refuses what the reference would. */
  lemma RequestsAreDecidedLikeSem(s: State, step: Step)
    requires Core(s) && AllSettled(s) && Can(s, step) && (step.Load? || step.Try? || step.Acquire?)
    requires var r := StepClaim(s, step).r; r in s.budgets && S.Small(s.budgets[r]) && !s.budgets[r].closed
    ensures var Claim(r, n) := StepClaim(s, step); Decided(s, step, MoveClaim(s, step).0, S.View(s.budgets[r]), n)
    ensures Do(s, step).calls == MoveClaim(s, step).0.calls
  {
    var Claim(r, n) := StepClaim(s, step);
    StepClaimOk(s, step);
    CallFacts(s, step.c, r);
    RequestIsDecided(s, step, MoveClaim(s, step).0, s.budgets[r], n);
    RequestsWakeNobody(s, step);
  }

  lemma RequestIsDecided(s: State, step: Step, t: State, b: B.Budget<int>, n: int)
    requires Can(s, step) && (step.Load? || step.Try? || step.Acquire?) && t == MoveClaim(s, step).0
    requires var Claim(r, m) := StepClaim(s, step); m == n && r in s.budgets && b == s.budgets[r]
    requires B.Settled(b) && S.Small(b) && !b.closed && 0 < n <= b.size
    ensures Decided(s, step, t, S.View(b), n)
  {
    S.AcquiringSimulates(b, step.c, n);
    B.FastRefusalIsExact(b, n);
  }

  predicate Decided(s: State, step: Step, t: State, v: S.Semaphore, n: int)
    requires (step.Load? || step.Try? || step.Acquire?) && Can(s, step)
  {
    && step.c < |t.calls|
    && var i, pc := s.calls[step.c].pc.i, t.calls[step.c].pc;
       if step.Load? then pc.Releasing? ==> !v.TryAcquire(n).1
       else if step.Try? then pc == Claiming(i + 1) <==> v.TryAcquire(n).1
       else pc == Claiming(i + 1) <==> v.Acquire(step.c, n).1
  }

  lemma RequestsWakeNobody(s: State, step: Step)
    requires Can(s, step) && (step.Load? || step.Try? || step.Acquire?)
    ensures Do(s, step).calls == MoveClaim(s, step).0.calls
  {
    ClaimStepIsItsMove(s, step);
  }

  lemma OthersAreNudged(s: State, step: Step, c: nat)
    requires Core(s) && AllSettled(s) && Reasoned(s) && IsClaimStep(step) && Can(s, step)
    requires c < |s.calls| && c != step.c
    ensures c < |Do(s, step).calls| && NudgedBy(s.calls[c], Do(s, step).calls[c], Granted)
  {
    ClaimMoveShape(s, step);
    ClaimStepGrants(s, step);
  }

  lemma QueueIsWhoAwaits(s: State, r: string, c: nat)
    requires Core(s) && r in s.budgets && c < |s.calls|
    ensures B.InQueue(s.budgets[r].queue, c) <==> Awaits(s.calls[c], r)
  {
    assert QueueOk(s, r);
    if B.InQueue(s.budgets[r].queue, c) {
      var k :| 0 <= k < |s.budgets[r].queue| && s.budgets[r].queue[k].id == c;
      assert TicketOk(s, r, s.budgets[r].queue[k]);
    }
  }

  /** Whoever a budget's own step takes off the queue, the reference's grants,
      is granted. */
  lemma TakenOffIsGranted(s: State, step: Step, r: string, c: nat)
    requires Inv(s) && Can(s, step) && IsClaimStep(step) && r in s.budgets && r in Do(s, step).budgets
    requires c < |s.calls| && c != step.c
    requires B.InQueue(s.budgets[r].queue, c) && !B.InQueue(Do(s, step).budgets[r].queue, c)
    ensures c < |Do(s, step).calls| && Do(s, step).calls[c].state == Granted
  {
    OthersAreNudged(s, step, c);
    QueueIsWhoAwaits(s, r, c);
    QueuesAfter(s, step, r, c);
  }

  lemma QueuesAfter(s: State, step: Step, r: string, c: nat)
    requires Inv(s) && Can(s, step) && r in Do(s, step).budgets && c < |Do(s, step).calls|
    ensures B.InQueue(Do(s, step).budgets[r].queue, c) <==> Awaits(Do(s, step).calls[c], r)
  {
    StepKeepsInv(s, step);
    QueueIsWhoAwaits(Do(s, step), r, c);
  }
}
