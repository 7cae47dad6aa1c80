/** Every step keeps the whole invariant, and what that means for runs. */
module Safety {
  import opened Sequences
  import opened Totals
  import opened Claims
  import opened Protocol
  import opened Invariant
  import opened KeyInvariant
  import opened GateInvariant
  import B = Budgets

  /** The invariant of every reachable state. */
  predicate Inv(s: State) {
    && Core(s) && AllSettled(s)
    && Keyed(s, -1)
    && Gated(s) && Counted(s) && Reasoned(s)
    && SweepOk(s)
  }

  /** A sweeping Shutdown has budgets left to close among the runtime's own. */
  predicate SweepOk(s: State) {
    forall d :: 0 <= d < |s.downs| && s.downs[d].Sweeping? ==> s.downs[d].todo <= s.budgets.Keys
  }

  /** A fresh runtime: no call has started and nothing is in use. */
  predicate Initial(s: State) {
    && (forall r :: r in s.budgets ==>
          0 < s.budgets[r].size <= B.MAX_INT64 && s.budgets[r] == B.Budget(s.budgets[r].size, 0, [], false, false))
    && (forall c :: 0 <= c < |s.calls| ==>
          && ValidOperation(s.calls[c], s.budgets) && s.calls[c].pc == Idle
          && s.calls[c].tries == 0 && s.calls[c].result == Pending
          && s.calls[c].book == BLANK)
    && s.locker == Locker(map[], map[], {}, false)
    && s.word == 0 && s.done == 0 && s.tally == Tally(0, 0, 0, 0, 0)
    && (forall d :: 0 <= d < |s.downs| ==> s.downs[d] == Fresh)
  }

  lemma InitialHolds(s: State)
    requires Initial(s)
    ensures Inv(s)
  {
    InitialCore(s);
    InitialGate(s);
  }

  lemma InitialCore(s: State)
    requires Initial(s)
    ensures Core(s) && AllSettled(s)
  {
    forall r | r in s.budgets
      ensures s.budgets[r].cur == Total(s.calls, UnitsOf(r)) && QueueOk(s, r)
    {
      TotalZero(s.calls, UnitsOf(r));
    }
  }

  lemma InitialGate(s: State)
    requires Initial(s)
    ensures Gated(s) && Counted(s)
  {
    TotalZero(s.calls, GateOne);
    TotalZero(s.calls, ClosingOne);
    TotalZero(s.calls, MarkingOne);
    TotalZero(s.calls, CountedOne);
    TotalZero(s.calls, LeftOne);
    TotalZero(s.calls, RanOne);
    TotalZero(s.calls, RetriesOf);
    TotalZero(s.calls, RefusalsOf);
    TotalZero(s.downs, DownClosingOne);
    TotalZero(s.downs, DownMarkOne);
  }

  // ---------- a step is its move, completed ----------

  lemma KeyStepIsItsMove(s: State, step: Step)
    requires IsKeyStep(step) && Can(s, step)
    ensures var (t, rest) := MoveKey(s, step); Applies(t, rest) && Do(s, step) == Complete(t, rest)
  {
  }

  lemma GateStepIsItsMove(s: State, step: Step)
    requires IsGateStep(step) && Can(s, step)
    ensures Do(s, step) == MoveGate(s, step)
  {
  }

  lemma DownStepIsItsMove(s: State, step: Step)
    requires !IsCallStep(step) && Can(s, step)
    ensures var (t, rest) := MoveDown(s, step); Applies(t, rest) && Do(s, step) == Complete(t, rest)
  {
  }

  lemma ClaimStepIsItsMove(s: State, step: Step)
    requires IsClaimStep(step) && Can(s, step)
    ensures var (t, rest) := MoveClaim(s, step);
            Do(s, step) == if Applies(t, rest) then Complete(t, rest) else t
  {
  }

  // ---------- the woken calls ----------

  /** x, woken in a budget's queue; a grant is booked. */
  function WokenBy(x: Call, verdict: WaitState): Call {
    x.(state := verdict, token := true,
       book := if verdict == Granted then Owing(x.book, ClaimOf(x, ClaimIndex(x))) else x.book)
  }

  /** y is x, perhaps woken in a budget's queue. */
  predicate NudgedBy(x: Call, y: Call, verdict: WaitState) {
    y == x || (Queued(x) && y == WokenBy(x, verdict))
  }

  lemma {:induction false} GrantLoopNudges(s: State, r: string)
    requires Core(s) && r in s.budgets
    ensures var t := GrantLoop(s, r);
            |t.calls| == |s.calls| && t == s.(calls := t.calls, budgets := t.budgets)
            && forall i :: 0 <= i < |s.calls| ==> NudgedBy(s.calls[i], t.calls[i], Granted)
    decreases |s.budgets[r].queue|
  {
    if B.HeadFits(s.budgets[r]) {
      assert QueueOk(s, r) && TicketOk(s, r, s.budgets[r].queue[0]);
      GrantHeadKeepsCore(s, r);
      GrantLoopNudges(GrantHead(s, r), r);
    }
  }

  lemma {:induction false} WithdrawLoopNudges(s: State, r: string)
    requires Core(s) && r in s.budgets
    ensures var t := WithdrawLoop(s, r);
            |t.calls| == |s.calls| && t == s.(calls := t.calls, budgets := t.budgets)
            && forall i :: 0 <= i < |s.calls| ==> NudgedBy(s.calls[i], t.calls[i], Withdrawn)
    decreases |s.budgets[r].queue|
  {
    if s.budgets[r].queue != [] {
      WithdrawHeadKeepsCore(s, r);
      WithdrawLoopNudges(WithdrawHead(s, r), r);
      HeadNudges(s, r, WithdrawLoop(s, r));
    }
  }

  /** The head is woken, and whatever follows wakes others. */
  lemma HeadNudges(s: State, r: string, u: State)
    requires Core(s) && r in s.budgets && s.budgets[r].queue != [] && |u.calls| == |s.calls|
    requires forall i :: 0 <= i < |s.calls| ==> NudgedBy(WithdrawHead(s, r).calls[i], u.calls[i], Withdrawn)
    ensures forall i :: 0 <= i < |s.calls| ==> NudgedBy(s.calls[i], u.calls[i], Withdrawn)
  {
    assert QueueOk(s, r) && TicketOk(s, r, s.budgets[r].queue[0]);
    forall i | 0 <= i < |s.calls|
      ensures NudgedBy(s.calls[i], u.calls[i], Withdrawn)
    {
      assert NudgedBy(WithdrawHead(s, r).calls[i], u.calls[i], Withdrawn);
    }
  }

  // ---------- budgets after a critical section ----------

  /** Every budget but r is settled, and r only needs serving or publishing. */
  predicate SettledBut(s: State, r: string) {
    forall p :: p in s.budgets && p != r ==> B.Settled(s.budgets[p])
  }

  lemma ServeSettles(s: State, r: string)
    requires Core(s) && r in s.budgets && SettledBut(s, r)
    ensures Core(Complete(s, Serve(r))) && AllSettled(Complete(s, Serve(r)))
  {
    var t := GrantLoop(s, r);
    GrantLoopKeepsCore(s, r);
    GrantLoopServes(s, r);
    FlagsKeepCore(t, r, B.Sync(t.budgets[r]));
  }

  /** After the loop only the hint of r is still to be published. */
  lemma GrantLoopServes(s: State, r: string)
    requires AllSane(s) && r in s.budgets && SettledBut(s, r)
    ensures var t := GrantLoop(s, r); r in t.budgets && SettledBut(t, r) && B.Settled(B.Sync(t.budgets[r]))
  {
    GrantLoopBudgets(s, r);
    assert B.Sane(s.budgets[r]);
    B.GrantServesAPrefix(s.budgets[r]);
  }

  lemma RefreshSettles(s: State, r: string)
    requires Core(s) && r in s.budgets && SettledBut(s, r) && !B.HeadFits(s.budgets[r])
    ensures Core(Complete(s, Refresh(r))) && AllSettled(Complete(s, Refresh(r)))
  {
    assert B.Sane(s.budgets[r]);
    FlagsKeepCore(s, r, B.Sync(s.budgets[r]));
  }

  lemma WithdrawSettles(s: State, r: string)
    requires Core(s) && r in s.budgets && SettledBut(s, r)
    ensures Core(Complete(s, Withdraw(r))) && AllSettled(Complete(s, Withdraw(r)))
  {
    var t := WithdrawLoop(s, r);
    WithdrawLoopBudgets(s, r);
    WithdrawLoopKeepsCore(s, r);
    WithdrawnSettles(s, t, r);
    WithdrawalEnds(s, t, r);
  }

  lemma WithdrawalEnds(s: State, t: State, r: string)
    requires r in s.budgets && t == WithdrawLoop(s, r) && r in t.budgets
    ensures Complete(s, Withdraw(r)) == WithBudget(t, r, B.Sync(t.budgets[r].(closed := true)))
  {
  }

  lemma WithdrawnSettles(s: State, t: State, r: string)
    requires Core(t) && r in s.budgets && SettledBut(s, r) && t.budgets == s.budgets[r := s.budgets[r].(queue := [])]
    ensures var u := WithBudget(t, r, B.Sync(t.budgets[r].(closed := true))); Core(u) && AllSettled(u)
  {
    var b := B.Sync(t.budgets[r].(closed := true));
    assert B.Sane(t.budgets[r]);
    FlagsKeepCore(t, r, b);
  }

  /** Budget r is the only one touched, and ready for its completion. */
  predicate Ready(t: State, rest: Rest, r: string) {
    && SettledBut(t, r) && r in t.budgets
    && (rest == Serve(r) || (rest == Refresh(r) && !B.HeadFits(t.budgets[r]))
        || (rest == Nothing && B.Settled(t.budgets[r])))
  }

  lemma LoadLeaves(s: State, c: nat, r: string)
    requires AllSettled(s) && c < |s.calls| && s.calls[c].pc.Claiming? && r in s.budgets
    ensures Ready(LoadMove(s, c, r), Nothing, r)
  {
  }

  lemma ReleaseLeaves(s: State, c: nat, r: string, n: int)
    requires AllSettled(s) && c < |s.calls| && s.calls[c].pc.Releasing? && s.calls[c].pc.i > 0 && r in s.budgets
    ensures Ready(ReleaseMove(s, c, r, n).0, Serve(r), r)
  {
  }

  lemma TryLeaves(s: State, c: nat, r: string, n: int)
    requires AllSettled(s) && c < |s.calls| && s.calls[c].pc.Trying? && r in s.budgets
    ensures Ready(TryMove(s, c, r, n).0, TryMove(s, c, r, n).1, r)
  {
    assert B.Settled(s.budgets[r]);
  }

  lemma AcquireLeaves(s: State, c: nat, r: string, n: int)
    requires AllSettled(s) && c < |s.calls| && s.calls[c].pc.Claiming? && r in s.budgets
    ensures Ready(AcquireMove(s, c, r, n).0, AcquireMove(s, c, r, n).1, r)
  {
    var b := s.budgets[r];
    assert B.Settled(b);
    assert b.queue != [] ==> (b.queue + [B.Ticket(c, n)])[0] == b.queue[0];
  }

  lemma LeaveLeaves(s: State, c: nat, r: string, n: int)
    requires AllSettled(s) && c < |s.calls| && s.calls[c].pc.Leaving? && r in s.budgets
    ensures Ready(LeaveMove(s, c, r, n).0, LeaveMove(s, c, r, n).1, r)
  {
    var q := s.budgets[r].queue;
    assert B.Settled(s.budgets[r]);
    assert forall k: nat :: 0 < k < |q| ==> Without(q, k)[0] == q[0];
  }

  lemma MoveClaimLeaves(s: State, step: Step)
    requires AllSettled(s) && IsClaimStep(step) && Can(s, step) && StepClaim(s, step).r in s.budgets
    ensures Ready(MoveClaim(s, step).0, MoveClaim(s, step).1, StepClaim(s, step).r)
  {
    var Claim(r, n) := StepClaim(s, step);
    match step
    case Load(c) => LoadLeaves(s, c, r);
    case Try(c) => TryLeaves(s, c, r, n);
    case Acquire(c) => AcquireLeaves(s, c, r, n);
    case Leave(c) => LeaveLeaves(s, c, r, n);
    case Release(c) => ReleaseLeaves(s, c, r, n);
  }

  // ---------- the other invariants across a budget's critical section ----------

  /** Everything a budget's completion leaves alone. */
  predicate OnlyWoke(s: State, t: State, verdict: WaitState) {
    && |t.calls| == |s.calls|
    && t == s.(calls := t.calls, budgets := t.budgets)
    && (forall i :: 0 <= i < |s.calls| ==> NudgedBy(s.calls[i], t.calls[i], verdict))
    && (forall r :: r in t.budgets && t.budgets[r].closed ==>
          (r in s.budgets && s.budgets[r].closed) || verdict == Withdrawn)
  }

  /** The invariants that do not look at budgets. */
  predicate Outer(s: State) {
    Keyed(s, -1) && Gated(s) && Counted(s) && Reasoned(s)
  }

  lemma WakingKeepsOuter(s: State, t: State, verdict: WaitState)
    requires Outer(s) && OnlyWoke(s, t, verdict)
    requires verdict == Granted || (verdict == Withdrawn && Stopped(s.word))
    ensures Outer(t)
  {
    forall i | 0 <= i < |s.calls|
      ensures KeyQuiet(s.calls[i], t.calls[i]) && SameFace(s.calls[i], t.calls[i])
      ensures ReasonOk(t.calls[i], Stopped(t.word))
    {
      assert NudgedBy(s.calls[i], t.calls[i], verdict);
      assert ReasonOk(s.calls[i], Stopped(s.word));
    }
    KeyQuietMoves(s, t, -1);
    FacesDecide(s, t);
  }

  lemma BudgetCompletionWakes(s: State, rest: Rest)
    requires Core(s) && Applies(s, rest) && (rest.Refresh? || rest.Serve? || rest.Withdraw?)
    ensures OnlyWoke(s, Complete(s, rest), if rest.Withdraw? then Withdrawn else Granted)
    ensures Complete(s, rest).budgets.Keys == s.budgets.Keys
  {
    match rest
    case Refresh(r) =>
    case Serve(r) =>
      GrantLoopNudges(s, r);
      GrantLoopBudgets(s, r);
      assert B.Sane(s.budgets[r]);
      B.GrantServesAPrefix(s.budgets[r]);
    case Withdraw(r) =>
      WithdrawLoopNudges(s, r);
      WithdrawLoopBudgets(s, r);
  }

  /** A budget's own critical section: the caller's move, then some grants. */
  lemma ClaimStepSplits(s: State, step: Step)
    requires Core(s) && AllSettled(s) && IsClaimStep(step) && Can(s, step)
    ensures var (t, rest) := MoveClaim(s, step);
            Core(t) && Applies(t, rest) && Do(s, step) == Complete(t, rest)
            && (rest == Nothing || rest.Refresh? || rest.Serve?)
  {
    MoveClaimKeepsCore(s, step);
    StepClaimOk(s, step);
    MoveClaimLeaves(s, step);
    ClaimStepIsItsMove(s, step);
  }

  lemma ClaimStepGrants(s: State, step: Step)
    requires Core(s) && AllSettled(s) && IsClaimStep(step) && Can(s, step)
    ensures OnlyWoke(MoveClaim(s, step).0, Do(s, step), Granted)
    ensures Do(s, step).budgets.Keys == MoveClaim(s, step).0.budgets.Keys
  {
    ClaimStepSplits(s, step);
    var (t, rest) := MoveClaim(s, step);
    if rest != Nothing {
      BudgetCompletionWakes(t, rest);
    }
  }

  /** One call moves without entering, leaving or being counted anywhere. */
  predicate PlainMove(s: State, t: State, c: nat) {
    && OneCall(s, t, c)
    && t.word == s.word && t.done == s.done && t.tally == s.tally && t.downs == s.downs
    && t.locker.closed == s.locker.closed
    && t.budgets.Keys == s.budgets.Keys
    && (forall r :: r in t.budgets ==> t.budgets[r].closed == s.budgets[r].closed)
    && SameWeight(s.calls[c], t.calls[c])
    && ReasonOk(t.calls[c], Stopped(s.word))
  }

  lemma PlainKeepsGate(s: State, t: State, c: nat)
    requires Gated(s) && Counted(s) && Reasoned(s) && PlainMove(s, t, c)
    ensures Gated(t) && Counted(t) && Reasoned(t)
  {
    WeightlessMove(s, t, c);
    forall i | 0 <= i < |t.calls|
      ensures ReasonOk(t.calls[i], Stopped(t.word))
    {
      assert i != c ==> ReasonOk(s.calls[i], Stopped(s.word));
    }
  }

  predicate AdmissionMove(s: State, t: State, c: nat) {
    PlainMove(s, t, c) && t.locker == s.locker && KeyQuiet(s.calls[c], t.calls[c])
  }

  lemma AdmissionKeepsOuter(s: State, t: State, c: nat)
    requires Outer(s) && AdmissionMove(s, t, c)
    ensures Outer(t)
  {
    PlainKeepsGate(s, t, c);
    KeyQuietMoves(s, t, -1);
  }

  lemma ClaimMoveShape(s: State, step: Step)
    requires Core(s) && Reasoned(s) && IsClaimStep(step) && Can(s, step)
    ensures AdmissionMove(s, MoveClaim(s, step).0, step.c)
  {
    StepClaimOk(s, step);
    var x := s.calls[step.c];
    assert CallOk(x) && ReasonOk(x, Stopped(s.word));
    var Claim(r, n) := StepClaim(s, step);
    match step
    case Load(c) => LoadShape(s, c, r);
    case Try(c) => TryShape(s, c, r, n);
    case Acquire(c) => AcquireShape(s, c, r, n);
    case Leave(c) => LeaveShape(s, c, r, n);
    case Release(c) => ReleaseShape(s, c, r, n);
  }

  /** y differs from x by moving between points of admission and release. */
  predicate AdmissionPoints(x: Call, y: Call) {
    && y == x.(pc := y.pc, state := y.state, token := y.token, book := y.book)
    && PastKey(x.pc) && PastKey(y.pc)
    && Decided(x.pc) == Decided(y.pc)
  }

  lemma AdmissionPointsAreQuiet(x: Call, y: Call, stopping: bool)
    requires AdmissionPoints(x, y) && ReasonOk(x, stopping)
    requires Failing(y) && y.mode == Wait ==> y.ended || stopping
    requires AtWait(y.pc) ==> y.state == Waiting
    ensures SameWeight(x, y) && KeyQuiet(x, y) && ReasonOk(y, stopping)
  {
  }

  lemma LoadShape(s: State, c: nat, r: string)
    requires c < |s.calls| && r in s.budgets && s.calls[c].pc.Claiming? && s.calls[c].mode == Reject
    requires ReasonOk(s.calls[c], Stopped(s.word))
    ensures AdmissionMove(s, LoadMove(s, c, r), c)
  {
    AdmissionPointsAreQuiet(s.calls[c], LoadMove(s, c, r).calls[c], Stopped(s.word));
  }

  lemma TryShape(s: State, c: nat, r: string, n: int)
    requires c < |s.calls| && r in s.budgets && s.calls[c].pc.Trying? && s.calls[c].mode == Reject
    requires ReasonOk(s.calls[c], Stopped(s.word))
    ensures AdmissionMove(s, TryMove(s, c, r, n).0, c)
  {
    AdmissionPointsAreQuiet(s.calls[c], TryMove(s, c, r, n).0.calls[c], Stopped(s.word));
  }

  lemma AcquireShape(s: State, c: nat, r: string, n: int)
    requires c < |s.calls| && r in s.budgets && s.calls[c].pc.Claiming? && s.calls[c].mode == Wait
    requires ReasonOk(s.calls[c], Stopped(s.word)) && (s.budgets[r].closed ==> Stopped(s.word))
    ensures AdmissionMove(s, AcquireMove(s, c, r, n).0, c)
  {
    AdmissionPointsAreQuiet(s.calls[c], AcquireMove(s, c, r, n).0.calls[c], Stopped(s.word));
  }

  lemma LeaveShape(s: State, c: nat, r: string, n: int)
    requires c < |s.calls| && r in s.budgets && s.calls[c].pc.Leaving?
    requires ReasonOk(s.calls[c], Stopped(s.word))
    ensures AdmissionMove(s, LeaveMove(s, c, r, n).0, c)
  {
    AdmissionPointsAreQuiet(s.calls[c], LeaveMove(s, c, r, n).0.calls[c], Stopped(s.word));
  }

  lemma ReleaseShape(s: State, c: nat, r: string, n: int)
    requires c < |s.calls| && r in s.budgets && s.calls[c].pc.Releasing? && s.calls[c].pc.i > 0
    requires ReasonOk(s.calls[c], Stopped(s.word))
    ensures AdmissionMove(s, ReleaseMove(s, c, r, n).0, c)
  {
    AdmissionPointsAreQuiet(s.calls[c], ReleaseMove(s, c, r, n).0.calls[c], Stopped(s.word));
  }

  lemma ClaimStepKeepsInv(s: State, step: Step)
    requires Inv(s) && IsClaimStep(step) && Can(s, step)
    ensures Inv(Do(s, step))
  {
    var (t, rest) := MoveClaim(s, step);
    ClaimStepSplits(s, step);
    StepClaimOk(s, step);
    MoveClaimLeaves(s, step);
    ClaimMoveShape(s, step);
    AdmissionKeepsOuter(s, t, step.c);
    CompletionKeepsInv(t, rest, StepClaim(s, step).r);
  }

  lemma CompletionKeepsInv(t: State, rest: Rest, r: string)
    requires Core(t) && Outer(t) && SweepOk(t)
    requires Ready(t, rest, r) || (rest == Withdraw(r) && r in t.budgets && SettledBut(t, r) && Stopped(t.word))
    ensures Inv(Complete(t, rest))
  {
    if rest != Nothing {
      BudgetCompletionWakes(t, rest);
      WakingKeepsOuter(t, Complete(t, rest), if rest.Withdraw? then Withdrawn else Granted);
    }
    match rest
    case Nothing =>
    case Serve(_) => ServeSettles(t, r);
    case Refresh(_) => RefreshSettles(t, r);
    case Withdraw(_) => WithdrawSettles(t, r);
  }

  // ---------- key steps ----------

  /** A step on the key locker, seen from everywhere else. */
  predicate KeyMove(s: State, t: State, c: nat) {
    && PlainMove(s, t, c)
    && t.budgets == s.budgets
    && Quiet(s.calls[c], t.calls[c]) && CallOk(t.calls[c])
  }

  lemma KeyMoveKeepsRest(s: State, t: State, c: nat)
    requires Core(s) && AllSettled(s) && Gated(s) && Counted(s) && Reasoned(s) && SweepOk(s) && KeyMove(s, t, c)
    ensures Core(t) && AllSettled(t) && Gated(t) && Counted(t) && Reasoned(t) && SweepOk(t)
  {
    QuietMove(s, t, c);
    PlainKeepsGate(s, t, c);
  }

  predicate KeyPoints(x: Call, y: Call) {
    && y == x.(pc := y.pc, state := y.state, token := y.token, entry := y.entry, book := y.book)
    && (x.pc.Locking? || x.pc.KeyLeaving? || (x.pc.Releasing? && x.pc.i == 0))
    && (y.pc == Claiming(0) || y.pc.KeyParked? || y.pc.Refusing? || (y.pc.Exiting? && x.pc == Releasing(0, false)))
    && (x.pc == Releasing(0, false) ==> y.pc.Exiting?)
    && (y.pc.KeyParked? ==> x.pc.Locking? && y.state == Waiting && !y.token && y.mode == Wait)
  }

  lemma KeyPointsAreQuiet(x: Call, y: Call, stopping: bool)
    requires KeyPoints(x, y) && CallOk(x) && ReasonOk(x, stopping)
    requires Failing(y) && y.mode == Wait ==> y.ended || stopping
    ensures SameWeight(x, y) && ReasonOk(y, stopping) && Quiet(x, y) && CallOk(y)
  {
  }

  lemma LockShape(s: State, c: nat, e: nat)
    requires c < |s.calls| && s.calls[c].pc.Locking?
    requires CallOk(s.calls[c]) && ReasonOk(s.calls[c], Stopped(s.word)) && (s.locker.closed ==> Stopped(s.word))
    ensures KeyMove(s, LockMove(s, c, e), c) || LockMove(s, c, e) == s
  {
    var t := LockMove(s, c, e);
    if t != s {
      KeyPointsAreQuiet(s.calls[c], t.calls[c], Stopped(s.word));
    }
  }

  lemma LockKeepsKeyed(s: State, c: nat, e: nat)
    requires Keyed(s, -1) && Can(s, Lock(c, e)) && CallOk(s.calls[c])
    ensures Keyed(LockMove(s, c, e), -1)
  {
    var x, l := s.calls[c], s.locker;
    if x.key !in l.m {
      TakeKeepsKeyed(s, c, e);
    } else if x.mode == Reject || l.closed || x.ended {
      KeyQuietMoves(s, LockMove(s, c, e), -1);
    } else {
      QueueKeepsKeyed(s, c, l.m[x.key]);
    }
  }

  lemma LockKeepsInv(s: State, c: nat, e: nat)
    requires Inv(s) && Can(s, Lock(c, e))
    ensures Inv(LockMove(s, c, e))
  {
    assert CallOk(s.calls[c]) && ReasonOk(s.calls[c], Stopped(s.word));
    LockShape(s, c, e);
    if LockMove(s, c, e) != s {
      KeyMoveKeepsRest(s, LockMove(s, c, e), c);
    }
    LockKeepsKeyed(s, c, e);
  }

  /** The key of entry e goes to its head waiter, who is woken. */
  lemma HandOffKeepsRest(s: State, e: nat)
    requires Core(s) && AllSettled(s) && Gated(s) && Counted(s) && Reasoned(s) && SweepOk(s) && Keyed(s, e)
    ensures var t := HandOff(s, e);
            Core(t) && AllSettled(t) && Gated(t) && Counted(t) && Reasoned(t) && SweepOk(t)
  {
    var t := HandOff(s, e);
    if e in s.locker.cells && s.locker.cells[e].queue != [] {
      assert KeyQueueOk(s, e) && WaiterOk(s, e, s.locker.cells[e].queue[0]);
    }
    WokenForKeyKeepsRest(s, t, Granted);
  }

  predicate KeyNudged(x: Call, y: Call, verdict: WaitState) {
    y == x || (AwaitsKey(x) && y == KeyWokenBy(x, verdict))
  }

  /** x, woken in its key's queue; the key, if it was handed over, is booked. */
  function KeyWokenBy(x: Call, verdict: WaitState): Call {
    x.(state := verdict, token := true, book := if verdict == Granted then WithKey(x.book) else x.book)
  }

  lemma WokenForKeyKeepsRest(s: State, t: State, verdict: WaitState)
    requires Core(s) && AllSettled(s) && Gated(s) && Counted(s) && Reasoned(s) && SweepOk(s)
    requires |t.calls| == |s.calls| && t == s.(calls := t.calls, locker := t.locker)
    requires forall i :: 0 <= i < |s.calls| ==> KeyNudged(s.calls[i], t.calls[i], verdict)
    requires verdict == Granted || (verdict == Withdrawn && Stopped(s.word))
    requires t.locker.closed ==> s.locker.closed || Stopped(s.word)
    ensures Core(t) && AllSettled(t) && Gated(t) && Counted(t) && Reasoned(t) && SweepOk(t)
  {
    forall i | 0 <= i < |s.calls|
      ensures Quiet(s.calls[i], t.calls[i]) && CallOk(t.calls[i])
      ensures SameFace(s.calls[i], t.calls[i])
      ensures ReasonOk(t.calls[i], Stopped(t.word))
    {
      assert KeyNudged(s.calls[i], t.calls[i], verdict) && CallOk(s.calls[i]) && ReasonOk(s.calls[i], Stopped(s.word));
      NudgedForKey(s.calls[i], t.calls[i], verdict, Stopped(s.word));
    }
    QuietMoves(s, t);
    FacesDecide(s, t);
  }

  lemma NudgedForKey(x: Call, y: Call, verdict: WaitState, stopping: bool)
    requires KeyNudged(x, y, verdict) && CallOk(x) && ReasonOk(x, stopping)
    requires verdict == Granted || (verdict == Withdrawn && stopping)
    ensures Quiet(x, y) && CallOk(y) && SameFace(x, y) && ReasonOk(y, stopping)
  {
  }

  lemma LeaveKeyShape(s: State, c: nat)
    requires c < |s.calls| && s.calls[c].pc.KeyLeaving?
    requires CallOk(s.calls[c]) && ReasonOk(s.calls[c], Stopped(s.word))
    ensures KeyMove(s, LeaveKeyMove(s, c).0, c)
  {
    KeyPointsAreQuiet(s.calls[c], LeaveKeyMove(s, c).0.calls[c], Stopped(s.word));
  }

  lemma LeaveKeyKeepsKeyed(s: State, c: nat)
    requires Keyed(s, -1) && c < |s.calls| && s.calls[c].pc.KeyLeaving? && CallOk(s.calls[c])
    ensures var (t, rest) := LeaveKeyMove(s, c);
            if s.calls[c].state == Granted then HandableTo(t, rest, s.calls[c].entry)
            else rest == Nothing && Keyed(t, -1)
  {
    var x := s.calls[c];
    var (t, rest) := LeaveKeyMove(s, c);
    if x.state == Waiting {
      FindsItselfByKey(s, c, -1);
      DequeueKeepsKeyed(s, c, IndexOf(s.locker.cells[x.entry].queue, c));
    } else if x.state == Granted {
      StepOffKeepsKeyed(s, t, c);
    } else {
      KeyQuietMoves(s, t, -1);
    }
  }

  predicate HandableTo(t: State, rest: Rest, e: nat) {
    rest == HandKey(e) && Keyed(t, e) && e in t.locker.cells && e !in t.locker.pool
  }

  lemma UnlockShape(s: State, c: nat)
    requires c < |s.calls| && s.calls[c].pc.Releasing? && s.calls[c].pc.i == 0
    requires CallOk(s.calls[c]) && ReasonOk(s.calls[c], Stopped(s.word))
    ensures KeyMove(s, UnlockMove(s, c).0, c)
  {
    KeyPointsAreQuiet(s.calls[c], UnlockMove(s, c).0.calls[c], Stopped(s.word));
  }

  lemma UnlockKeepsKeyed(s: State, c: nat)
    requires Keyed(s, -1) && c < |s.calls| && s.calls[c].pc.Releasing?
    ensures var (t, rest) := UnlockMove(s, c);
            if s.calls[c].key != "" then HandableTo(t, rest, s.calls[c].entry) else rest == Nothing && Keyed(t, -1)
  {
    var (t, rest) := UnlockMove(s, c);
    if s.calls[c].key != "" {
      StepOffKeepsKeyed(s, t, c);
    } else {
      KeyQuietMoves(s, t, -1);
    }
  }

  lemma HandOffCompletes(t: State, rest: Rest, e: nat)
    requires Core(t) && AllSettled(t) && Gated(t) && Counted(t) && Reasoned(t) && SweepOk(t)
    requires HandableTo(t, rest, e) || (rest == Nothing && Keyed(t, -1))
    ensures Inv(Complete(t, rest))
  {
    if rest == HandKey(e) {
      HandOffKeepsKeyed(t, e);
      HandOffKeepsRest(t, e);
    }
  }

  lemma LeaveKeyKeepsInv(s: State, c: nat)
    requires Inv(s) && Can(s, LeaveKey(c))
    ensures Inv(Do(s, LeaveKey(c)))
  {
    var (t, rest) := LeaveKeyMove(s, c);
    CallIsSound(s, c);
    LeaveKeyShape(s, c);
    KeyMoveKeepsRest(s, t, c);
    LeaveKeyKeepsKeyed(s, c);
    HandOffCompletes(t, rest, s.calls[c].entry);
    KeyStepIsItsMove(s, LeaveKey(c));
  }

  lemma CallIsSound(s: State, c: nat)
    requires Core(s) && Reasoned(s) && c < |s.calls|
    ensures CallOk(s.calls[c]) && ReasonOk(s.calls[c], Stopped(s.word))
  {
  }

  lemma UnlockKeepsInv(s: State, c: nat)
    requires Inv(s) && Can(s, Unlock(c))
    ensures Inv(Do(s, Unlock(c)))
  {
    var (t, rest) := UnlockMove(s, c);
    CallIsSound(s, c);
    UnlockShape(s, c);
    KeyMoveKeepsRest(s, t, c);
    UnlockKeepsKeyed(s, c);
    HandOffCompletes(t, rest, s.calls[c].entry);
    KeyStepIsItsMove(s, Unlock(c));
  }

  // ---------- the call's own steps ----------

  lemma GateStepKeepsInv(s: State, step: Step)
    requires Inv(s) && IsGateStep(step) && Can(s, step)
    ensures Inv(Do(s, step))
  {
    CallIsSound(s, step.c);
    MoveGateKeepsCore(s, step);
    GateMoveKeepsCounted(s, step);
    GateMoveKeepsGated(s, step);
    GateMoveKeepsReasoned(s, step);
    GateMoveKeepsKeyed(s, step);
    GateStepIsItsMove(s, step);
    GateMoveLeavesOthers(s, step);
  }

  lemma GateMoveLeavesOthers(s: State, step: Step)
    requires IsGateStep(step) && Can(s, step)
    ensures var t := MoveGate(s, step);
            t.calls == s.calls[step.c := NextCall(s.calls[step.c], step, s.word)]
            && t.downs == s.downs && t.budgets == s.budgets && t.locker == s.locker
  {
  }

  lemma GateMoveKeepsKeyed(s: State, step: Step)
    requires Keyed(s, -1) && IsGateStep(step) && Can(s, step) && CallOk(s.calls[step.c])
    ensures Keyed(MoveGate(s, step), -1)
  {
    GateMoveLeavesOthers(s, step);
    GateStepIsKeyQuiet(s.calls[step.c], step, s.word, s);
    KeyQuietMoves(s, MoveGate(s, step), -1);
  }

  lemma GateStepIsKeyQuiet(x: Call, step: Step, w: int, s: State)
    requires IsGateStep(step) && CallCan(s, x, step) && CallOk(x)
    ensures KeyQuiet(x, NextCall(x, step, w))
  {
    if IsParkStep(step) {
      ParkStepIsKeyQuiet(x, step, w, s);
    }
  }

  lemma ParkStepIsKeyQuiet(x: Call, step: Step, w: int, s: State)
    requires IsGateStep(step) && CallCan(s, x, step) && CallOk(x) && IsParkStep(step)
    ensures KeyQuiet(x, NextCall(x, step, w))
  {
  }

  // ---------- Shutdown's steps ----------

  lemma DownMoveKeepsOuter(s: State, step: Step)
    requires Inv(s) && !IsCallStep(step) && Can(s, step)
    ensures var t := MoveDown(s, step).0;
            Core(t) && AllSettled(t) && Outer(t) && SweepOk(t)
            && t.calls == s.calls && t.budgets == s.budgets && t.locker == s.locker
  {
    var t := MoveDown(s, step).0;
    DownMoveKeepsGated(s, step);
    DownMoveKeepsRest(s, step);
    DownMoveShape(s, step);
    QuietMoves(s, t);
    KeyQuietMoves(s, t, -1);
  }

  lemma DownMoveShape(s: State, step: Step)
    requires !IsCallStep(step) && Can(s, step) && SweepOk(s)
    ensures var (t, rest) := MoveDown(s, step); t == s.(downs := t.downs, word := t.word, done := t.done) && SweepOk(t)
    ensures var rest := MoveDown(s, step).1;
            rest == Nothing || (rest.Withdraw? && rest.r in s.budgets && s.downs[step.d].Sweeping?)
            || (rest.WithdrawKeys? && s.downs[step.d].Sweeping?)
    ensures Stopped(s.word) ==> s.downs[step.d].Sweeping? ==> Stopped(MoveDown(s, step).0.word)
  {
  }

  lemma DownStepKeepsInv(s: State, step: Step)
    requires Inv(s) && !IsCallStep(step) && Can(s, step)
    ensures Inv(Do(s, step))
  {
    var (t, rest) := MoveDown(s, step);
    DownMoveKeepsOuter(s, step);
    DownMoveShape(s, step);
    DownStepIsItsMove(s, step);
    SweepersStop(t, s, step);
    match rest
    case Nothing =>
    case Withdraw(r) => CompletionKeepsInv(t, rest, r);
    case WithdrawKeys => WithdrawAllKeepsInv(t);
  }

  /** Only a thread that has set the stopping bit sweeps. */
  lemma SweepersStop(t: State, s: State, step: Step)
    requires Reasoned(s) && SweepOk(s) && !IsCallStep(step) && Can(s, step) && t == MoveDown(s, step).0
    ensures s.downs[step.d].Sweeping? ==> Stopped(t.word)
  {
    DownMoveShape(s, step);
  }

  lemma WithdrawAllKeepsInv(s: State)
    requires Inv(s) && Stopped(s.word)
    ensures Inv(WithdrawAllKeys(s))
  {
    var t := WithdrawAllKeys(s);
    WithdrawAllKeepsKeyed(s);
    forall i | 0 <= i < |s.calls|
      ensures KeyNudged(s.calls[i], t.calls[i], Withdrawn)
    {
      WithdrawAllShape(s, i);
    }
    WokenForKeyKeepsRest(s, t, Withdrawn);
  }

  // ---------- runs ----------

  /** Every step of the protocol keeps the invariant. */
  lemma StepKeepsInv(s: State, step: Step)
    requires Inv(s) && Can(s, step)
    ensures Inv(Do(s, step))
  {
    if !IsCallStep(step) {
      DownStepKeepsInv(s, step);
    } else if IsClaimStep(step) {
      ClaimStepKeepsInv(s, step);
    } else if step.Lock? {
      LockKeepsInv(s, step.c, step.e);
    } else if step.LeaveKey? {
      LeaveKeyKeepsInv(s, step.c);
    } else if step.Unlock? {
      UnlockKeepsInv(s, step.c);
    } else {
      GateStepKeepsInv(s, step);
    }
  }

  predicate RunAt(ss: seq<State>, steps: seq<Step>, i: nat)
    requires |ss| == |steps| + 1 && i < |steps|
  {
    Can(ss[i], steps[i]) && ss[i + 1] == Do(ss[i], steps[i])
  }

  /** A finite run: states linked by steps of any threads in any order. */
  predicate Run(ss: seq<State>, steps: seq<Step>) {
    |ss| == |steps| + 1 && forall i: nat :: i < |steps| ==> RunAt(ss, steps, i)
  }

  lemma {:induction false} RunKeepsInv(ss: seq<State>, steps: seq<Step>, i: nat)
    requires Run(ss, steps) && Inv(ss[0]) && i < |ss|
    ensures Inv(ss[i])
  {
    if i > 0 {
      RunKeepsInv(ss, steps, i - 1);
      assert RunAt(ss, steps, i - 1);
      StepKeepsInv(ss[i - 1], steps[i - 1]);
    }
  }
}
