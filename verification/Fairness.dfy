/** The machine works each budget by the budget's own operations, so the
    strict FIFO of one budget holds over whole runs of any number of calls. */
module Fairness {
  import opened Sequences
  import opened Claims
  import opened Protocol
  import opened Invariant
  import opened KeyInvariant
  import opened GateInvariant
  import opened Safety
  import B = Budgets

  datatype BudgetOp = Keep | Grab(n: int) | Enqueue(t: B.Ticket<int>) | Drop(k: nat) | Return(n: int) | Shut

  predicate CanApply(b: B.Budget<int>, op: BudgetOp) {
    match op
    case Grab(n) => B.Fits(b, n)
    case Enqueue(t) => !B.Fits(b, t.n) && !b.closed && 0 < t.n <= b.size
    case Drop(k) => k < |b.queue|
    case Return(n) => 0 < n <= b.cur
    case _ => true
  }

  function Apply(b: B.Budget<int>, op: BudgetOp): B.Budget<int>
    requires CanApply(b, op)
  {
    match op
    case Keep => b
    case Grab(n) => B.Sync(b.(cur := b.cur + n))
    case Enqueue(t) => B.Sync(b.(queue := b.queue + [t]))
    case Drop(k) => B.Leave(b, k)
    case Return(n) => B.Release(b, n)
    case Shut => B.Close(b)
  }

  /** What a step does to the budget its claim names. */
  function ClaimOp(s: State, step: Step, r: string, n: int): BudgetOp
    requires IsClaimStep(step) && Can(s, step) && r in s.budgets
  {
    var x, b := s.calls[step.c], s.budgets[r];
    match step
    case Load(_) => Keep
    case Try(_) => if B.Fits(b, n) then Grab(n) else Keep
    case Acquire(c) => if B.Fits(b, n) then Grab(n) else if b.closed || x.ended then Keep else Enqueue(B.Ticket(c, n))
    case Leave(c) =>
      if x.state == Waiting then Drop(B.Find(b.queue, c)) else if x.state == Granted then Return(n) else Keep
    case Release(_) => Return(n)
  }

  function OpOf(s: State, step: Step, r: string): BudgetOp
    requires Can(s, step) && r in s.budgets
  {
    if step.CloseBudget? && step.r == r then Shut
    else if IsClaimStep(step) && StepClaim(s, step).r == r then ClaimOp(s, step, r, StepClaim(s, step).n)
    else Keep
  }

  // ---------- the machine refines the budget ----------

  /** The step and its completion apply the operation to r and touch no other budget. */
  predicate Refines(s: State, t: State, rest: Rest, r: string, op: BudgetOp) {
    && r in s.budgets && Applies(t, rest) && CanApply(s.budgets[r], op)
    && Complete(t, rest).budgets == s.budgets[r := Apply(s.budgets[r], op)]
  }

  lemma KeepsAsIs(s: State, t: State, r: string)
    requires r in s.budgets && t.budgets == s.budgets
    ensures Refines(s, t, Nothing, r, Keep)
  {
    assert s.budgets[r := s.budgets[r]] == s.budgets;
  }

  lemma TryRefines(s: State, c: nat, r: string, n: int)
    requires c < |s.calls| && s.calls[c].pc.Trying? && r in s.budgets
    ensures var (t, rest) := TryMove(s, c, r, n);
            Refines(s, t, rest, r, if B.Fits(s.budgets[r], n) then Grab(n) else Keep)
  {
    if !B.Fits(s.budgets[r], n) {
      KeepsAsIs(s, TryMove(s, c, r, n).0, r);
    }
  }

  lemma AcquireRefines(s: State, c: nat, r: string, n: int)
    requires c < |s.calls| && s.calls[c].pc.Claiming? && r in s.budgets && 0 < n <= s.budgets[r].size
    ensures var (t, rest) := AcquireMove(s, c, r, n); var b := s.budgets[r];
            Refines(s, t, rest, r,
                    if B.Fits(b, n) then Grab(n)
                    else if b.closed || s.calls[c].ended then Keep
                    else Enqueue(B.Ticket(c, n)))
  {
    var b := s.budgets[r];
    if !B.Fits(b, n) && (b.closed || s.calls[c].ended) {
      KeepsAsIs(s, AcquireMove(s, c, r, n).0, r);
    }
  }

  lemma ServedIsGranted(s: State, t: State, r: string, b: B.Budget<int>)
    requires r in s.budgets && t.budgets == s.budgets[r := b]
    ensures Complete(t, Serve(r)).budgets == s.budgets[r := B.Sync(B.Grant(b))]
  {
    GrantLoopBudgets(t, r);
  }

  lemma ReleaseRefines(s: State, c: nat, r: string, n: int)
    requires c < |s.calls| && s.calls[c].pc.Releasing? && s.calls[c].pc.i > 0 && r in s.budgets
             && 0 < n <= s.budgets[r].cur
    ensures var (t, rest) := ReleaseMove(s, c, r, n); Refines(s, t, rest, r, Return(n))
  {
    ServedIsGranted(s, ReleaseMove(s, c, r, n).0, r, s.budgets[r].(cur := s.budgets[r].cur - n));
  }

  lemma LeaveRefines(s: State, c: nat, r: string, n: int)
    requires c < |s.calls| && s.calls[c].pc.Leaving? && r in s.budgets && 0 < n && B.Settled(s.budgets[r])
    requires s.calls[c].state == Waiting ==> B.Find(s.budgets[r].queue, c) < |s.budgets[r].queue|
    requires s.calls[c].state == Granted ==> n <= s.budgets[r].cur
    ensures var (t, rest) := LeaveMove(s, c, r, n); var x := s.calls[c];
            Refines(s, t, rest, r,
                    if x.state == Waiting then Drop(B.Find(s.budgets[r].queue, c))
                    else if x.state == Granted then Return(n) else Keep)
  {
    var x, b := s.calls[c], s.budgets[r];
    var (t, rest) := LeaveMove(s, c, r, n);
    if x.state == Waiting {
      var k := B.Find(b.queue, c);
      if k == 0 {
        ServedIsGranted(s, t, r, b.(queue := Without(b.queue, k)));
      }
    } else if x.state == Granted {
      ServedIsGranted(s, t, r, b.(cur := b.cur - n));
    } else {
      assert B.Sync(b) == b;
    }
  }

  lemma ClaimStepRefines(s: State, step: Step)
    requires Core(s) && AllSettled(s) && IsClaimStep(step) && Can(s, step)
    ensures var Claim(r, n) := StepClaim(s, step); var (t, rest) := MoveClaim(s, step);
            r in s.budgets && Refines(s, t, rest, r, ClaimOp(s, step, r, n))
  {
    StepClaimOk(s, step);
    var Claim(r, n) := StepClaim(s, step);
    CallFacts(s, step.c, r);
    match step
    case Load(c) => KeepsAsIs(s, LoadMove(s, c, r), r);
    case Try(c) => TryRefines(s, c, r, n);
    case Acquire(c) => AcquireRefines(s, c, r, n);
    case Leave(c) => LeavingRefines(s, c, r, n);
    case Release(c) => ReturningRefines(s, c, r, n);
  }

  lemma ReturningRefines(s: State, c: nat, r: string, n: int)
    requires Core(s) && c < |s.calls| && s.calls[c].pc.Releasing? && s.calls[c].pc.i > 0
    requires Invariant.OnClaim(s, c, s.calls[c].pc.i - 1, r, n) && 0 < n
    ensures var (t, rest) := ReleaseMove(s, c, r, n); Refines(s, t, rest, r, Return(n))
  {
    ReleaseKeepsCore(s, c, r, n);
    ReleaseRefines(s, c, r, n);
  }

  lemma LeavingRefines(s: State, c: nat, r: string, n: int)
    requires Core(s) && AllSettled(s) && c < |s.calls| && s.calls[c].pc.Leaving?
             && Invariant.OnClaim(s, c, s.calls[c].pc.i, r, n)
    ensures var (t, rest) := LeaveMove(s, c, r, n); var x := s.calls[c];
            Refines(s, t, rest, r,
                    if x.state == Waiting then Drop(B.Find(s.budgets[r].queue, c))
                    else if x.state == Granted then Return(n) else Keep)
  {
    LeaveKeepsCore(s, c, r, n);
    if s.calls[c].state == Waiting {
      FindsItself(s, c, r);
    }
    CallFacts(s, c, r);
    LeaveRefines(s, c, r, n);
  }

  lemma OtherStepsSpareBudgets(s: State, step: Step)
    requires Can(s, step) && !IsClaimStep(step) && !step.CloseBudget?
    ensures Do(s, step).budgets == s.budgets
  {
    var (t, rest) := Move(s, step);
    assert t.budgets == s.budgets && (rest == Nothing || rest.HandKey? || rest.WithdrawKeys?);
  }

  lemma CloseStepRefines(s: State, step: Step)
    requires Can(s, step) && step.CloseBudget?
    ensures Do(s, step).budgets == s.budgets[step.r := B.Close(s.budgets[step.r])]
  {
    var t := MoveDown(s, step).0;
    WithdrawLoopBudgets(t, step.r);
  }

  predicate Worked(b: B.Budget<int>, op: BudgetOp, after: map<string, B.Budget<int>>, r: string) {
    CanApply(b, op) && r in after && after[r] == Apply(b, op)
  }

  /** Refinement: every step of the machine works every budget by exactly one
      of that budget's own operations. */
  lemma StepRefinesBudgets(s: State, step: Step, r: string)
    requires Core(s) && AllSettled(s) && Can(s, step) && r in s.budgets
    ensures CanApply(s.budgets[r], OpOf(s, step, r))
    ensures r in Do(s, step).budgets && Do(s, step).budgets[r] == Apply(s.budgets[r], OpOf(s, step, r))
  {
    StepWorksBudget(s, step, Do(s, step), r, OpOf(s, step, r));
  }

  lemma StepWorksBudget(s: State, step: Step, t: State, r: string, op: BudgetOp)
    requires Core(s) && AllSettled(s) && Can(s, step) && t == Do(s, step) && r in s.budgets && op == OpOf(s, step, r)
    ensures Worked(s.budgets[r], op, t.budgets, r)
  {
    if IsClaimStep(step) {
      ClaimStepWorks(s, step);
    } else {
      OtherStepWorks(s, step, t, r, op);
    }
  }

  lemma OtherStepWorks(s: State, step: Step, t: State, r: string, op: BudgetOp)
    requires Can(s, step) && t == Do(s, step) && r in s.budgets && op == OpOf(s, step, r) && !IsClaimStep(step)
    ensures Worked(s.budgets[r], op, t.budgets, r)
  {
    if step.CloseBudget? {
      CloseStepRefines(s, step);
    } else {
      OtherStepsSpareBudgets(s, step);
    }
  }

  lemma ClaimStepWorks(s: State, step: Step)
    requires Core(s) && AllSettled(s) && IsClaimStep(step) && Can(s, step)
    ensures var Claim(r, n) := StepClaim(s, step);
            r in s.budgets && CanApply(s.budgets[r], ClaimOp(s, step, r, n))
            && Do(s, step).budgets == s.budgets[r := Apply(s.budgets[r], ClaimOp(s, step, r, n))]
  {
    ClaimStepRefines(s, step);
    ClaimStepIsItsMove(s, step);
  }

  // ---------- strict FIFO ----------

  ghost predicate Ahead(q: seq<B.Ticket<int>>, a: int, b: int) {
    exists i, j :: 0 <= i < j < |q| && q[i].id == a && q[j].id == b
  }

  /** Each waiter is queued once. */
  predicate Distinct(q: seq<B.Ticket<int>>) {
    forall i, j :: 0 <= i < j < |q| ==> q[i].id != q[j].id
  }

  /** No operation lets b leave the queue before a, unless b itself drops out. */
  lemma ApplyKeepsOrder(x: B.Budget<int>, op: BudgetOp, a: int, b: int)
    requires B.Settled(x) && Distinct(x.queue) && CanApply(x, op) && Ahead(x.queue, a, b)
    requires op.Drop? ==> x.queue[op.k].id != b
    ensures B.InQueue(Apply(x, op).queue, a) ==> Ahead(Apply(x, op).queue, a, b)
  {
    var i, j :| 0 <= i < j < |x.queue| && x.queue[i].id == a && x.queue[j].id == b;
    match op
    case Return(n) =>
      PrefixGone(x.queue, B.GrantCount(x.(cur := x.cur - n)), a, b);
      B.GrantServesAPrefix(x.(cur := x.cur - n));
    case Drop(k) => DropKeepsOrder(x, k, a, b);
    case Enqueue(t) =>
      var q := x.queue + [t];
      assert q[i].id == a && q[j].id == b;
    case _ =>
  }

  lemma PrefixGone(q: seq<B.Ticket<int>>, g: nat, a: int, b: int)
    requires Distinct(q) && Ahead(q, a, b)
    ensures g <= |q| && B.InQueue(q[g..], a) ==> Ahead(q[g..], a, b)
  {
    var i, j :| 0 <= i < j < |q| && q[i].id == a && q[j].id == b;
    if g <= |q| && B.InQueue(q[g..], a) {
      var k :| 0 <= k < |q[g..]| && q[g..][k].id == a;
      assert q[g + k].id == a;
      assert q[g..][j - g].id == b;
    }
  }

  lemma DropKeepsOrder(x: B.Budget<int>, k: nat, a: int, b: int)
    requires B.Settled(x) && Distinct(x.queue) && k < |x.queue| && Ahead(x.queue, a, b) && x.queue[k].id != b
    ensures B.InQueue(B.Leave(x, k).queue, a) ==> Ahead(B.Leave(x, k).queue, a, b)
  {
    var i, j :| 0 <= i < j < |x.queue| && x.queue[i].id == a && x.queue[j].id == b;
    var q := Without(x.queue, k);
    var y := x.(queue := q);
    forall u, v | 0 <= u < v < |q|
      ensures q[u].id != q[v].id
    {
      assert q[u] == x.queue[if u < k then u else u + 1] && q[v] == x.queue[if v < k then v else v + 1];
    }
    if i != k {
      assert q[if i < k then i else i - 1].id == a && q[if j < k then j else j - 1].id == b;
      if k == 0 {
        B.GrantServesAPrefix(y);
        PrefixGone(q, B.GrantCount(y), a, b);
      }
    } else {
      GoneFor(x, k, a);
    }
  }

  lemma GoneFor(x: B.Budget<int>, k: nat, a: int)
    requires B.Settled(x) && Distinct(x.queue) && k < |x.queue| && x.queue[k].id == a
    ensures !B.InQueue(B.Leave(x, k).queue, a)
  {
    var q := Without(x.queue, k);
    forall u | 0 <= u < |q|
      ensures q[u].id != a
    {
      assert q[u] == x.queue[if u < k then u else u + 1];
    }
    B.GrantServesAPrefix(x.(queue := q));
  }

  /** Strict FIFO at one step: whoever queued first stays first until it is
      served or gives up; a later waiter leaves earlier only by giving up. */
  lemma StepKeepsOrder(s: State, step: Step, r: string, a: int, b: int)
    requires Core(s) && AllSettled(s) && Can(s, step) && r in s.budgets && Ahead(s.budgets[r].queue, a, b)
    requires !(step.Leave? && step.c == b)
    ensures r in Do(s, step).budgets
    ensures var after := Do(s, step).budgets[r]; B.InQueue(after.queue, a) ==> Ahead(after.queue, a, b)
  {
    StepRefinesBudgets(s, step, r);
    BudgetIsSound(s, r);
    if OpOf(s, step, r).Drop? {
      DropsOnlyItself(s, step, r);
    }
    ApplyKeepsOrder(s.budgets[r], OpOf(s, step, r), a, b);
  }

  lemma BudgetIsSound(s: State, r: string)
    requires Core(s) && AllSettled(s) && r in s.budgets
    ensures B.Settled(s.budgets[r]) && Distinct(s.budgets[r].queue)
  {
    assert QueueOk(s, r);
  }

  /** A ticket leaves the queue ungranted only by its own call's leave. */
  lemma DropsOnlyItself(s: State, step: Step, r: string)
    requires Can(s, step) && r in s.budgets && CanApply(s.budgets[r], OpOf(s, step, r)) && OpOf(s, step, r).Drop?
    ensures step.Leave? && s.budgets[r].queue[OpOf(s, step, r).k].id == step.c
  {
  }

  lemma RunStepKeepsOrder(ss: seq<State>, steps: seq<Step>, r: string, a: int, b: int, i: nat)
    requires Run(ss, steps) && Inv(ss[0]) && i < |steps| && AheadIn(ss[i], r, a, b) && QueuedIn(ss[i + 1], r, a)
    requires !(steps[i].Leave? && steps[i].c == b)
    ensures AheadIn(ss[i + 1], r, a, b)
  {
    RunKeepsInv(ss, steps, i);
    assert RunAt(ss, steps, i);
    StepKeepsOrder(ss[i], steps[i], r, a, b);
  }

  predicate QueuedIn(s: State, r: string, a: int) {
    r in s.budgets ==> B.InQueue(s.budgets[r].queue, a)
  }

  /** Caller b does not give up its place in the first j steps. */
  predicate Stays(steps: seq<Step>, b: int, j: nat)
    requires j <= |steps|
  {
    forall k :: 0 <= k < j ==> !(steps[k].Leave? && steps[k].c == b)
  }

  ghost predicate AheadIn(s: State, r: string, a: int, b: int) {
    r in s.budgets && Ahead(s.budgets[r].queue, a, b)
  }

  /** Strict FIFO over whole runs: if a queued on r before b, then b is not
      served, and cannot stop waiting except by giving up, while a waits. */
  lemma {:induction false} StrictFifo(ss: seq<State>, steps: seq<Step>, r: string, a: int, b: int, j: nat)
    requires Run(ss, steps) && Inv(ss[0]) && j < |ss| && AheadIn(ss[0], r, a, b)
    requires Stays(steps, b, j)
    requires forall k :: 0 <= k <= j ==> QueuedIn(ss[k], r, a)
    ensures AheadIn(ss[j], r, a, b)
  {
    if j > 0 {
      var i := j - 1;
      StrictFifo(ss, steps, r, a, b, i);
      assert QueuedIn(ss[i + 1], r, a);
      RunStepKeepsOrder(ss, steps, r, a, b, i);
    }
  }

  /** While the same waiter stays at the head nobody obtains a unit, so a
      heavy request cannot be starved by lighter ones. */
  lemma HeadIsNeverOvertaken(s: State, step: Step, r: string)
    requires Inv(s) && Can(s, step) && r in s.budgets && s.budgets[r].queue != []
    requires r in Do(s, step).budgets && Do(s, step).budgets[r].queue != []
    requires Do(s, step).budgets[r].queue[0].id == s.budgets[r].queue[0].id
    ensures Do(s, step).budgets[r].cur <= s.budgets[r].cur
  {
    StepRefinesBudgets(s, step, r);
    assert B.Settled(s.budgets[r]) && QueueOk(s, r);
    HeadHolds(s.budgets[r], OpOf(s, step, r));
  }

  lemma HeadHolds(x: B.Budget<int>, op: BudgetOp)
    requires B.Settled(x) && Distinct(x.queue) && CanApply(x, op) && x.queue != []
    requires Apply(x, op).queue != [] && Apply(x, op).queue[0].id == x.queue[0].id
    ensures Apply(x, op).cur <= x.cur
  {
    match op
    case Return(n) =>
      var y := x.(cur := x.cur - n);
      B.GrantServesAPrefix(y);
      var g := B.GrantCount(y);
      assert x.queue[g..][0] == x.queue[g];
      assert y.queue[..0] == [];
    case Drop(k) =>
      if k == 0 {
        GoneFor(x, 0, x.queue[0].id);
      }
    case _ =>
  }

  // ---------- strict FIFO of a key ----------

  /** The calls waiting for key k, in order. */
  function KeyQueue(l: Locker, k: string): seq<int> {
    if k in l.m && l.m[k] in l.cells then l.cells[l.m[k]].queue else []
  }

  ghost predicate AheadOf(q: seq<int>, a: int, b: int) {
    exists i, j :: 0 <= i < j < |q| && q[i] == a && q[j] == b
  }

  /** One key operation: join at the end, drop out, pass to the head, or close. */
  ghost predicate Advanced(q: seq<int>, q': seq<int>, leaver: int) {
    || q' == q
    || (exists c :: q' == q + [c])
    || (exists j: nat :: j < |q| && q[j] == leaver && q' == Without(q, j))
    || (q != [] && q' == q[1..])
    || q' == []
  }

  lemma DroppedKeepsOrder(q: seq<int>, k: nat, a: int, b: int)
    requires k < |q| && q[k] != b && AheadOf(q, a, b) && a in Without(q, k)
    requires forall i, j :: 0 <= i < j < |q| ==> q[i] != q[j]
    ensures AheadOf(Without(q, k), a, b)
  {
    var i, j :| 0 <= i < j < |q| && q[i] == a && q[j] == b;
    var q' := Without(q, k);
    var u :| 0 <= u < |q'| && q'[u] == a;
    assert q'[u] == q[if u < k then u else u + 1];
    assert q'[if i < k then i else i - 1] == a && q'[if j < k then j else j - 1] == b;
  }

  lemma JoinedKeepsOrder(q: seq<int>, c: int, a: int, b: int)
    requires AheadOf(q, a, b)
    ensures AheadOf(q + [c], a, b)
  {
    var i, j :| 0 <= i < j < |q| && q[i] == a && q[j] == b;
    assert (q + [c])[i] == a && (q + [c])[j] == b;
  }

  lemma AdvanceKeepsOrder(q: seq<int>, q': seq<int>, leaver: int, a: int, b: int)
    requires Advanced(q, q', leaver) && leaver != b
    requires forall i, j :: 0 <= i < j < |q| ==> q[i] != q[j]
    requires AheadOf(q, a, b) && a in q'
    ensures AheadOf(q', a, b)
  {
    if c :| q' == q + [c] {
      JoinedKeepsOrder(q, c, a, b);
    } else if k: nat :| k < |q| && q[k] == leaver && q' == Without(q, k) {
      DroppedKeepsOrder(q, k, a, b);
    } else if q != [] && q' == q[1..] {
      WithoutHead(q);
      DroppedKeepsOrder(q, 0, a, b);
    }
  }

  lemma LockAdvances(s: State, c: nat, e: nat, k: string)
    requires MapOk(s.locker) && Can(s, Lock(c, e)) && k in s.locker.m
    ensures Advanced(KeyQueue(s.locker, k), KeyQueue(LockMove(s, c, e).locker, k), -1)
  {
    var l, t, q := s.locker, LockMove(s, c, e), KeyQueue(s.locker, k);
    if s.calls[c].key in l.m && t.locker != l {
      var f := l.m[s.calls[c].key];
      assert t.locker.cells[f].queue == l.cells[f].queue + [c];
      assert f == l.m[k] ==> KeyQueue(t.locker, k) == q + [c];
    }
  }

  lemma HandOffAdvances(s: State, e: nat, k: string)
    requires MapOk(s.locker) && e in s.locker.cells && e !in s.locker.pool && k in s.locker.m
    ensures Advanced(KeyQueue(s.locker, k), KeyQueue(HandOff(s, e).locker, k), -1)
  {
    assert CellOk(s.locker, e);
  }

  lemma LeaveKeyAdvances(s: State, c: nat, k: string)
    requires Keyed(s, -1) && c < |s.calls| && s.calls[c].pc.KeyLeaving? && CallOk(s.calls[c]) && k in s.locker.m
    ensures var (t, rest) := LeaveKeyMove(s, c);
            Advanced(KeyQueue(s.locker, k), KeyQueue(Complete(t, rest).locker, k), c)
  {
    if s.calls[c].state == Waiting {
      QuitterAdvances(s, c, k);
    } else if s.calls[c].state == Granted {
      LeaveKeyKeepsKeyed(s, c);
      HandOffAdvances(LeaveKeyMove(s, c).0, s.calls[c].entry, k);
    }
  }

  lemma QuitterAdvances(s: State, c: nat, k: string)
    requires Keyed(s, -1) && c < |s.calls| && AwaitsKey(s.calls[c]) && k in s.locker.m
    ensures var (t, rest) := LeaveKeyMove(s, c);
            rest == Nothing && Advanced(KeyQueue(s.locker, k), KeyQueue(t.locker, k), c)
  {
    var x, l := s.calls[c], s.locker;
    FindsItselfByKey(s, c, -1);
    var q := l.cells[x.entry].queue;
    var j := IndexOf(q, c);
    assert LeaveKeyMove(s, c) == (DequeueKeyMove(s, c, j), Nothing);
    assert l.m[k] == x.entry ==> KeyQueue(DequeueKeyMove(s, c, j).locker, k) == Without(q, j);
  }

  lemma UnlockAdvances(s: State, c: nat, k: string)
    requires Keyed(s, -1) && c < |s.calls| && s.calls[c].pc.Releasing? && k in s.locker.m
    ensures var (t, rest) := UnlockMove(s, c);
            Advanced(KeyQueue(s.locker, k), KeyQueue(Complete(t, rest).locker, k), -1)
  {
    var (t, rest) := UnlockMove(s, c);
    if s.calls[c].key != "" {
      UnlockKeepsKeyed(s, c);
      HandOffAdvances(t, s.calls[c].entry, k);
    }
  }

  lemma WithdrawAllAdvances(s: State, k: string)
    requires MapOk(s.locker) && k in s.locker.m
    ensures KeyQueue(WithdrawAllKeys(s).locker, k) == []
  {
  }

  lemma StepAdvancesKey(s: State, step: Step, k: string)
    requires Inv(s) && Can(s, step) && k in s.locker.m
    ensures Advanced(KeyQueue(s.locker, k), KeyQueue(Do(s, step).locker, k), if step.LeaveKey? then step.c else -1)
  {
    if IsKeyStep(step) {
      KeyStepAdvancesKey(s, step, k);
    } else if step.CloseKeys? {
      ClosingEmptiesKey(s, step, k);
    } else {
      OtherStepsSpareKeys(s, step);
    }
  }

  lemma ClosingEmptiesKey(s: State, step: Step, k: string)
    requires MapOk(s.locker) && SweepOk(s) && step.CloseKeys? && Can(s, step) && k in s.locker.m
    ensures KeyQueue(Do(s, step).locker, k) == []
  {
    DownStepIsItsMove(s, step);
    WithdrawAllAdvances(MoveDown(s, step).0, k);
  }

  lemma KeyStepAdvancesKey(s: State, step: Step, k: string)
    requires Keyed(s, -1) && CallsOk(s) && IsKeyStep(step) && Can(s, step) && k in s.locker.m
    ensures Advanced(KeyQueue(s.locker, k), KeyQueue(Do(s, step).locker, k), if step.LeaveKey? then step.c else -1)
  {
    KeyMoveAdvances(s, step, k);
    KeyStepIsItsMove(s, step);
  }

  lemma KeyMoveAdvances(s: State, step: Step, k: string)
    requires Keyed(s, -1) && CallsOk(s) && IsKeyStep(step) && Can(s, step) && k in s.locker.m
    ensures var (t, rest) := MoveKey(s, step);
            Applies(t, rest) && Advanced(KeyQueue(s.locker, k), KeyQueue(Complete(t, rest).locker, k),
                                         if step.LeaveKey? then step.c else -1)
  {
    if step.Lock? {
      LockAdvances(s, step.c, step.e, k);
    } else if step.LeaveKey? {
      assert CallOk(s.calls[step.c]);
      LeaveKeyAdvances(s, step.c, k);
    } else {
      UnlockAdvances(s, step.c, k);
    }
  }


  lemma OtherStepsSpareKeys(s: State, step: Step)
    requires Inv(s) && Can(s, step) && !IsKeyStep(step) && !step.CloseKeys?
    ensures Do(s, step).locker == s.locker
  {
    if IsClaimStep(step) {
      ClaimMoveShape(s, step);
      ClaimStepGrants(s, step);
    } else if IsCallStep(step) {
      GateStepIsItsMove(s, step);
      GateMoveLeavesOthers(s, step);
    } else {
      DownStepSparesKeys(s, step);
    }
  }

  lemma DownStepSparesKeys(s: State, step: Step)
    requires Core(s) && SweepOk(s) && !IsCallStep(step) && Can(s, step) && !step.CloseKeys?
    ensures Do(s, step).locker == s.locker
  {
    var (t, rest) := MoveDown(s, step);
    DownMoveShape(s, step);
    DownStepIsItsMove(s, step);
    if rest.Withdraw? {
      WithdrawSparesKeys(t, rest.r);
    }
  }

  lemma {:induction false} WithdrawLoopSparesKeys(s: State, r: string)
    requires r in s.budgets
    ensures WithdrawLoop(s, r).locker == s.locker
    decreases |s.budgets[r].queue|
  {
    if s.budgets[r].queue != [] {
      WithdrawLoopSparesKeys(WithdrawHead(s, r), r);
    }
  }

  lemma WithdrawSparesKeys(s: State, r: string)
    requires r in s.budgets
    ensures Complete(s, Withdraw(r)).locker == s.locker
  {
    WithdrawLoopSparesKeys(s, r);
  }

  /** FIFO hand-off of a key: while a waits for k, a later waiter b is not
      handed the key and stops waiting only by giving up. */
  lemma StepKeepsKeyOrder(s: State, step: Step, k: string, a: int, b: int)
    requires Inv(s) && Can(s, step) && AheadOf(KeyQueue(s.locker, k), a, b)
    requires b >= 0 && !(step.LeaveKey? && step.c == b)
    ensures a in KeyQueue(Do(s, step).locker, k) ==> AheadOf(KeyQueue(Do(s, step).locker, k), a, b)
  {
    var q, q' := KeyQueue(s.locker, k), KeyQueue(Do(s, step).locker, k);
    StepAdvancesKey(s, step, k);
    KeyQueueIsDistinct(s, k);
    if a in q' {
      AdvanceKeepsOrder(q, q', if step.LeaveKey? then step.c else -1, a, b);
    }
  }

  lemma KeyQueueIsDistinct(s: State, k: string)
    requires Keyed(s, -1) && k in s.locker.m
    ensures var q := KeyQueue(s.locker, k); forall i, j :: 0 <= i < j < |q| ==> q[i] != q[j]
  {
    assert KeyQueueOk(s, s.locker.m[k]);
  }

  lemma RunStepKeepsKeyOrder(ss: seq<State>, steps: seq<Step>, k: string, a: int, b: nat, i: nat)
    requires Run(ss, steps) && Inv(ss[0]) && i < |steps| && KeyAheadIn(ss[i], k, a, b) && KeyQueuedIn(ss[i + 1], k, a)
    requires !(steps[i].LeaveKey? && steps[i].c == b)
    ensures KeyAheadIn(ss[i + 1], k, a, b)
  {
    RunKeepsInv(ss, steps, i);
    assert RunAt(ss, steps, i);
    StepKeepsKeyOrder(ss[i], steps[i], k, a, b);
  }

  ghost predicate KeyAheadIn(s: State, k: string, a: int, b: int) {
    AheadOf(KeyQueue(s.locker, k), a, b)
  }

  predicate KeyQueuedIn(s: State, k: string, a: int) {
    a in KeyQueue(s.locker, k)
  }

  /** Caller b does not give up its place at a key in the first j steps. */
  predicate StaysAtKey(steps: seq<Step>, b: nat, j: nat)
    requires j <= |steps|
  {
    forall i :: 0 <= i < j ==> !(steps[i].LeaveKey? && steps[i].c == b)
  }

  lemma {:induction false} StrictKeyFifo(ss: seq<State>, steps: seq<Step>, k: string, a: int, b: nat, j: nat)
    requires Run(ss, steps) && Inv(ss[0]) && j < |ss| && KeyAheadIn(ss[0], k, a, b)
    requires StaysAtKey(steps, b, j)
    requires forall i :: 0 <= i <= j ==> KeyQueuedIn(ss[i], k, a)
    ensures KeyAheadIn(ss[j], k, a, b)
  {
    if j > 0 {
      var i := j - 1;
      StrictKeyFifo(ss, steps, k, a, b, i);
      assert KeyQueuedIn(ss[i + 1], k, a);
      RunStepKeepsKeyOrder(ss, steps, k, a, b, i);
    }
  }
}
