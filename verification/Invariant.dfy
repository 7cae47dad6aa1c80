/** What every step of the protocol keeps. */
module Invariant {
  import opened Sequences
  import opened Totals
  import opened Claims
  import opened Protocol
  import B = Budgets

  // ---------- calls ----------

  predicate PcInRange(c: Call) {
    match c.pc
    case Claiming(i) => i <= |c.claims|
    case Trying(i) => i < |c.claims|
    case Parked(i) => i < |c.claims|
    case Woken(i) => i < |c.claims|
    case Leaving(i, _) => i < |c.claims|
    case Releasing(i, _) => i <= |c.claims|
    case Looping(n) => n == c.tries + 1 <= c.attempts
    case Counting(n) => n == c.tries + 1 <= c.attempts
    case Handling(n) => n == c.tries && n > 0
    case _ => true
  }

  /** The wake-up channel holds a token exactly when the call was woken and
      has not yet received it, so no receive or send ever blocks. */
  predicate TokenOk(c: Call) {
    match c.pc
    case KeyParked => c.token == (c.state != Waiting)
    case Parked(_) => c.token == (c.state != Waiting)
    case KeyWoken => !c.token && c.state != Waiting
    case Woken(_) => !c.token && c.state != Waiting
    case KeyLeaving(woken) => c.token == (c.state != Waiting && !woken) && (woken ==> c.state != Waiting)
    case Leaving(_, woken) => c.token == (c.state != Waiting && !woken) && (woken ==> c.state != Waiting)
    case _ => true
  }

  predicate ModeOk(c: Call) {
    && (c.pc.Trying? ==> c.mode == Reject)
    && (c.pc.Parked? || c.pc.Woken? || c.pc.Leaving? || AtKey(c.pc) ==> c.mode == Wait)
    && (c.pc.Locking? || AtKey(c.pc) ==> c.key != "")
  }

  predicate NotYetRun(c: Call) {
    c.pc.Idle? || c.pc.Turned? || c.pc.Entered? || c.pc.Admitting? || c.pc.Locking? || AtKey(c.pc)
    || c.pc.Claiming? || c.pc.Trying? || c.pc.Parked? || c.pc.Woken? || c.pc.Leaving?
    || (c.pc.Releasing? && c.pc.failed) || c.pc.Refusing? || TurnedAway(c.pc)
  }

  /** Refused at the gate. */
  predicate TurnedAway(pc: Pc) {
    pc.Turned? || pc.Tallying? || pc == Marking(false) || pc == Closing(false) || pc == Returned(false)
  }

  /** What construction guarantees about a call's operation. */
  predicate ValidOperation(c: Call, budgets: map<string, B.Budget<int>>) {
    && c.attempts >= 1
    && Ascending(c.claims)
    && forall i :: 0 <= i < |c.claims| ==> c.claims[i].r in budgets && 0 < c.claims[i].n <= budgets[c.claims[i].r].size
  }

  predicate CallOk(c: Call) {
    && PcInRange(c) && TokenOk(c) && ModeOk(c)
    && c.tries <= c.attempts
    && (NotYetRun(c) ==> c.tries == 0)
  }

  predicate CallsOk(s: State) {
    forall c :: 0 <= c < |s.calls| ==> ValidOperation(s.calls[c], s.budgets) && CallOk(s.calls[c])
  }

  // ---------- budgets ----------

  /** Units in use are exactly the units calls have been charged for. */
  predicate Ledger(s: State) {
    forall r :: r in s.budgets ==> s.budgets[r].cur == Total(s.calls, UnitsOf(r))
  }

  predicate TicketOk(s: State, r: string, t: B.Ticket<int>) {
    0 <= t.id < |s.calls| && Awaits(s.calls[t.id], r) && t.n == s.calls[t.id].claims[ClaimIndex(s.calls[t.id])].n
  }

  /** The queue of r lists exactly the calls waiting for r, each once. */
  predicate QueueOk(s: State, r: string)
    requires r in s.budgets
  {
    var q := s.budgets[r].queue;
    && (forall k :: 0 <= k < |q| ==> TicketOk(s, r, q[k]))
    && (forall j, k :: 0 <= j < k < |q| ==> q[j].id != q[k].id)
    && (forall c {:trigger B.InQueue(q, c)} :: 0 <= c < |s.calls| && Awaits(s.calls[c], r) ==> B.InQueue(q, c))
  }

  predicate Queues(s: State) {
    forall r :: r in s.budgets ==> QueueOk(s, r)
  }

  predicate AllSane(s: State) {
    forall r :: r in s.budgets ==> B.Sane(s.budgets[r])
  }

  predicate AllSettled(s: State) {
    forall r :: r in s.budgets ==> B.Settled(s.budgets[r])
  }

  /** The part of the invariant that holds even inside a critical section. */
  predicate Core(s: State) {
    CallsOk(s) && Ledger(s) && Queues(s) && AllSane(s)
  }

  // ---------- one call moves ----------

  predicate SameShape(s: State, t: State) {
    s.budgets.Keys == t.budgets.Keys && forall r :: r in s.budgets ==> s.budgets[r].size == t.budgets[r].size
  }

  predicate SameOperation(x: Call, y: Call) {
    x.claims == y.claims && x.attempts == y.attempts && x.key == y.key && x.mode == y.mode
  }

  lemma CallsKept(s: State, t: State, c: nat)
    requires CallsOk(s) && SameShape(s, t)
    requires c < |s.calls| && c < |t.calls| && t.calls == s.calls[c := t.calls[c]]
    requires SameOperation(t.calls[c], s.calls[c]) && CallOk(t.calls[c])
    ensures CallsOk(t)
  {
    forall i | 0 <= i < |t.calls|
      ensures ValidOperation(t.calls[i], t.budgets) && CallOk(t.calls[i])
    {
      assert ValidOperation(s.calls[i], s.budgets) && CallOk(s.calls[i]);
    }
  }

  /** Units charged to r and to the call on the same step balance. */
  /** y is charged n units of r more than x. */
  ghost predicate Recharged(x: Call, y: Call, r: string, n: int) {
    forall p :: UnitsOf(p)(y) == UnitsOf(p)(x) + if p == r then n else 0
  }

  lemma SameCharge(x: Call, y: Call)
    requires y.claims == x.claims && Held(y) == Held(x)
    ensures Recharged(x, y, "", 0)
  {
  }

  lemma LedgerKept(s: State, t: State, c: nat, r: string, n: int)
    requires Ledger(s) && SameShape(s, t)
    requires c < |s.calls| && c < |t.calls| && t.calls == s.calls[c := t.calls[c]]
    requires forall p :: p in s.budgets ==> t.budgets[p].cur == s.budgets[p].cur + if p == r then n else 0
    requires Recharged(s.calls[c], t.calls[c], r, n)
    ensures Ledger(t)
  {
    forall p | p in t.budgets
      ensures t.budgets[p].cur == Total(t.calls, UnitsOf(p))
    {
      TotalUpdate(s.calls, c, t.calls[c], UnitsOf(p));
    }
  }

  /** The queue of p is unchanged and the moving call neither joins nor leaves it. */
  lemma QueueKept(s: State, t: State, c: nat, p: string)
    requires p in s.budgets && p in t.budgets && QueueOk(s, p)
    requires t.budgets[p].queue == s.budgets[p].queue
    requires c < |s.calls| && c < |t.calls| && t.calls == s.calls[c := t.calls[c]]
    requires t.calls[c].claims == s.calls[c].claims
    requires Awaits(t.calls[c], p) == Awaits(s.calls[c], p)
    requires Awaits(s.calls[c], p) ==> ClaimIndex(t.calls[c]) == ClaimIndex(s.calls[c])
    ensures QueueOk(t, p)
  {
    var q := t.budgets[p].queue;
    forall k | 0 <= k < |q|
      ensures TicketOk(t, p, q[k])
    {
      assert TicketOk(s, p, s.budgets[p].queue[k]);
    }
    forall i | 0 <= i < |t.calls| && Awaits(t.calls[i], p)
      ensures B.InQueue(q, i)
    {
      assert B.InQueue(s.budgets[p].queue, i);
    }
  }

  /** Nothing the budgets care about differs between x and y. */
  predicate Quiet(x: Call, y: Call) {
    && SameOperation(x, y)
    && Held(x) == Held(y)
    && Queued(x) == Queued(y)
    && (Queued(x) ==> ClaimIndex(x) == ClaimIndex(y))
  }

  lemma QuietMoves(s: State, t: State)
    requires Core(s) && t.budgets == s.budgets && |t.calls| == |s.calls|
    requires forall i :: 0 <= i < |s.calls| ==> Quiet(s.calls[i], t.calls[i]) && CallOk(t.calls[i])
    ensures Core(t)
  {
    forall i | 0 <= i < |t.calls|
      ensures ValidOperation(t.calls[i], t.budgets)
    {
      assert ValidOperation(s.calls[i], s.budgets);
    }
    forall p | p in t.budgets
      ensures t.budgets[p].cur == Total(t.calls, UnitsOf(p))
    {
      TotalSame(s.calls, t.calls, UnitsOf(p));
    }
    forall p | p in t.budgets
      ensures QueueOk(t, p)
    {
      assert QueueOk(s, p);
      forall k | 0 <= k < |t.budgets[p].queue|
        ensures TicketOk(t, p, t.budgets[p].queue[k])
      {
        assert TicketOk(s, p, s.budgets[p].queue[k]);
      }
    }
  }

  lemma QuietMove(s: State, t: State, c: nat)
    requires Core(s) && t.budgets == s.budgets
    requires c < |s.calls| && c < |t.calls| && t.calls == s.calls[c := t.calls[c]]
    requires Quiet(s.calls[c], t.calls[c]) && CallOk(t.calls[c])
    ensures Core(t)
  {
    QuietMoves(s, t);
  }

  // ---------- one waiter granted or withdrawn ----------

  lemma UnitsAfterGrant(c: Call, r: string, b: Book)
    requires CallOk(c) && Awaits(c, r)
    ensures var d := c.(state := Granted, token := true, book := b);
            CallOk(d) && Recharged(c, d, r, c.claims[ClaimIndex(c)].n)
  {
    OneMoreCharge(c, c.(state := Granted, token := true, book := b), r, c.claims[ClaimIndex(c)].n);
  }

  lemma GrantHeadKeepsCore(s: State, r: string)
    requires Core(s) && r in s.budgets && B.HeadFits(s.budgets[r])
    ensures Core(GrantHead(s, r))
  {
    var t := GrantHead(s, r);
    var q := s.budgets[r].queue;
    assert QueueOk(s, r) && TicketOk(s, r, q[0]);
    UnitsAfterGrant(s.calls[q[0].id], r, t.calls[q[0].id].book);
    CallsKept(s, t, q[0].id);
    LedgerKept(s, t, q[0].id, r, q[0].n);
    forall p | p in t.budgets
      ensures QueueOk(t, p) && B.Sane(t.budgets[p])
    {
      assert QueueOk(s, p) && B.Sane(s.budgets[p]);
      HeadGone(s, t, r, p);
    }
  }

  lemma WithdrawHeadKeepsCore(s: State, r: string)
    requires Core(s) && r in s.budgets && s.budgets[r].queue != []
    ensures Core(WithdrawHead(s, r))
  {
    var t := WithdrawHead(s, r);
    var q := s.budgets[r].queue;
    assert QueueOk(s, r) && TicketOk(s, r, q[0]);
    CallsKept(s, t, q[0].id);
    LedgerKept(s, t, q[0].id, r, 0);
    forall p | p in t.budgets
      ensures QueueOk(t, p) && B.Sane(t.budgets[p])
    {
      assert QueueOk(s, p) && B.Sane(s.budgets[p]);
      HeadGone(s, t, r, p);
    }
  }

  /** The head of r's queue, and only it, has stopped waiting. */
  lemma HeadGone(s: State, t: State, r: string, p: string)
    requires r in s.budgets && s.budgets[r].queue != [] && p in s.budgets && p in t.budgets
    requires QueueOk(s, r) && QueueOk(s, p)
    requires t.budgets[p].queue == if p == r then s.budgets[p].queue[1..] else s.budgets[p].queue
    requires var w := s.budgets[r].queue[0].id;
             0 <= w < |s.calls| && w < |t.calls| && t.calls == s.calls[w := t.calls[w]]
             && forall p :: !Awaits(t.calls[w], p)
    ensures QueueOk(t, p)
  {
    var w := s.budgets[r].queue[0].id;
    assert TicketOk(s, r, s.budgets[r].queue[0]);
    var q := t.budgets[p].queue;
    forall k | 0 <= k < |q|
      ensures TicketOk(t, p, q[k])
    {
      var k' := if p == r then k + 1 else k;
      assert q[k] == s.budgets[p].queue[k'] && TicketOk(s, p, s.budgets[p].queue[k']);
    }
    forall c | 0 <= c < |t.calls| && Awaits(t.calls[c], p)
      ensures B.InQueue(q, c)
    {
      assert B.InQueue(s.budgets[p].queue, c);
      var k :| 0 <= k < |s.budgets[p].queue| && s.budgets[p].queue[k].id == c;
      if p == r {
        assert q[k - 1].id == c;
      }
    }
  }

  /** The machine's grant loop is the budget's own. */
  lemma {:induction false} GrantLoopBudgets(s: State, r: string)
    requires r in s.budgets
    ensures GrantLoop(s, r).budgets == s.budgets[r := B.Grant(s.budgets[r])]
    decreases |s.budgets[r].queue|
  {
    if B.HeadFits(s.budgets[r]) {
      GrantLoopBudgets(GrantHead(s, r), r);
    }
  }

  lemma {:induction false} WithdrawLoopBudgets(s: State, r: string)
    requires r in s.budgets
    ensures WithdrawLoop(s, r).budgets == s.budgets[r := s.budgets[r].(queue := [])]
    decreases |s.budgets[r].queue|
  {
    if s.budgets[r].queue != [] {
      WithdrawLoopBudgets(WithdrawHead(s, r), r);
    }
  }

  lemma {:induction false} GrantLoopKeepsCore(s: State, r: string)
    requires Core(s) && r in s.budgets
    ensures Core(GrantLoop(s, r))
    decreases |s.budgets[r].queue|
  {
    if B.HeadFits(s.budgets[r]) {
      var t := GrantHead(s, r);
      GrantHeadKeepsCore(s, r);
      GrantLoopKeepsCore(t, r);
      assert GrantLoop(s, r) == GrantLoop(t, r);
    }
  }

  lemma {:induction false} WithdrawLoopKeepsCore(s: State, r: string)
    requires Core(s) && r in s.budgets
    ensures Core(WithdrawLoop(s, r))
    decreases |s.budgets[r].queue|
  {
    if s.budgets[r].queue != [] {
      var t := WithdrawHead(s, r);
      WithdrawHeadKeepsCore(s, r);
      WithdrawLoopKeepsCore(t, r);
      assert WithdrawLoop(s, r) == WithdrawLoop(t, r);
    }
  }

  /** Republishing full, or closing an empty queue, touches nothing in Core. */
  lemma FlagsKeepCore(s: State, r: string, b: B.Budget<int>)
    requires Core(s) && r in s.budgets && B.Sane(b)
    requires b == s.budgets[r].(closed := b.closed, full := b.full)
    ensures Core(WithBudget(s, r, b))
  {
    var t := WithBudget(s, r, b);
    forall c | 0 <= c < |t.calls|
      ensures ValidOperation(t.calls[c], t.budgets) && CallOk(t.calls[c])
    {
      assert ValidOperation(s.calls[c], s.budgets);
    }
    forall p | p in t.budgets
      ensures QueueOk(t, p)
    {
      assert QueueOk(s, p);
      forall k | 0 <= k < |s.budgets[p].queue|
        ensures TicketOk(t, p, s.budgets[p].queue[k])
      {
        assert TicketOk(s, p, s.budgets[p].queue[k]);
      }
    }
  }
  // ---------- every acting move ----------

  predicate IsKeyPark(step: Step) {
    step.TakeKey? || step.QuitKey? || step.SettleKey? || step.EndContext?
  }

  predicate IsClaimPark(step: Step) {
    step.Take? || step.Quit? || step.SettleClaim?
  }

  predicate IsAttemptStep(step: Step) {
    step.Start? || step.Loop? || step.CountAttempt? || step.Handler?
  }

  predicate IsParkStep(step: Step) {
    IsKeyPark(step) || IsClaimPark(step) || IsAttemptStep(step)
  }

  lemma ParkStepIsQuiet(s: State, step: Step)
    requires IsGateStep(step) && Can(s, step) && IsParkStep(step)
    requires CallOk(s.calls[step.c]) && s.calls[step.c].attempts >= 1
    ensures var x := s.calls[step.c]; var y := NextCall(x, step, s.word); Quiet(x, y) && CallOk(y)
  {
    if IsKeyPark(step) {
      KeyParkIsQuiet(s, step);
    } else if IsClaimPark(step) {
      ClaimParkIsQuiet(s, step);
    } else {
      AttemptIsQuiet(s, step);
    }
  }

  lemma KeyParkIsQuiet(s: State, step: Step)
    requires IsGateStep(step) && Can(s, step) && IsKeyPark(step)
    requires CallOk(s.calls[step.c]) && s.calls[step.c].attempts >= 1
    ensures var x := s.calls[step.c]; var y := NextCall(x, step, s.word); Quiet(x, y) && CallOk(y)
  {
  }

  lemma ClaimParkIsQuiet(s: State, step: Step)
    requires IsGateStep(step) && Can(s, step) && IsClaimPark(step)
    requires CallOk(s.calls[step.c]) && s.calls[step.c].attempts >= 1
    ensures var x := s.calls[step.c]; var y := NextCall(x, step, s.word); Quiet(x, y) && CallOk(y)
  {
  }

  lemma AttemptIsQuiet(s: State, step: Step)
    requires IsGateStep(step) && Can(s, step) && IsAttemptStep(step)
    requires CallOk(s.calls[step.c]) && s.calls[step.c].attempts >= 1
    ensures var x := s.calls[step.c]; var y := NextCall(x, step, s.word); Quiet(x, y) && CallOk(y)
  {
    if step.Handler? {
      HandlerIsQuiet(s, step);
    }
  }

  lemma HandlerIsQuiet(s: State, step: Step)
    requires IsGateStep(step) && Can(s, step) && step.Handler?
    requires CallOk(s.calls[step.c]) && s.calls[step.c].attempts >= 1
    ensures var x := s.calls[step.c]; var y := NextCall(x, step, s.word); Quiet(x, y) && CallOk(y)
  {
  }

  lemma GateStepIsQuiet(s: State, step: Step)
    requires IsGateStep(step) && Can(s, step)
    requires CallOk(s.calls[step.c]) && s.calls[step.c].attempts >= 1
    ensures var x := s.calls[step.c]; var y := NextCall(x, step, s.word); Quiet(x, y) && CallOk(y)
  {
    if IsParkStep(step) {
      ParkStepIsQuiet(s, step);
    }
  }

  lemma MoveGateKeepsCore(s: State, step: Step)
    requires Core(s) && IsGateStep(step) && Can(s, step)
    ensures Core(MoveGate(s, step))
  {
    assert ValidOperation(s.calls[step.c], s.budgets) && CallOk(s.calls[step.c]);
    GateStepIsQuiet(s, step);
    QuietMove(s, MoveGate(s, step), step.c);
  }
  // ---------- moves on budgets ----------

  lemma UnitsStep(cs: seq<Claim>, i: nat, r: string)
    requires i < |cs|
    ensures Units(cs, i + 1, r) == Units(cs, i, r) + if cs[i].r == r then cs[i].n else 0
  {
  }

  /** A charge of n units of r, made to call c on the same step. */
  lemma ChargeKeepsCore(s: State, t: State, c: nat, r: string, n: int)
    requires Core(s) && r in s.budgets
    requires t.budgets == s.budgets[r := s.budgets[r].(cur := s.budgets[r].cur + n)]
    requires 0 <= s.budgets[r].cur + n <= s.budgets[r].size
    requires c < |s.calls| && c < |t.calls| && t.calls == s.calls[c := t.calls[c]]
    requires SameOperation(t.calls[c], s.calls[c]) && CallOk(t.calls[c])
    requires !Queued(s.calls[c]) && !Queued(t.calls[c])
    requires Recharged(s.calls[c], t.calls[c], r, n)
    ensures Core(t)
  {
    CallsKept(s, t, c);
    LedgerKept(s, t, c, r, n);
    ChargeKeepsQueues(s, t, c, r, n);
    ChargeKeepsSane(s, t, r, n);
  }

  lemma ChargeKeepsSane(s: State, t: State, r: string, n: int)
    requires AllSane(s) && r in s.budgets && 0 <= s.budgets[r].cur + n <= s.budgets[r].size
    requires t.budgets == s.budgets[r := s.budgets[r].(cur := s.budgets[r].cur + n)]
    ensures AllSane(t)
  {
    assert B.Sane(s.budgets[r]);
  }

  lemma ChargeKeepsQueues(s: State, t: State, c: nat, r: string, n: int)
    requires Queues(s) && r in s.budgets
    requires t.budgets == s.budgets[r := s.budgets[r].(cur := s.budgets[r].cur + n)]
    requires c < |s.calls| && c < |t.calls| && t.calls == s.calls[c := t.calls[c]]
    requires t.calls[c].claims == s.calls[c].claims && !Queued(s.calls[c]) && !Queued(t.calls[c])
    ensures Queues(t)
  {
    forall p | p in t.budgets
      ensures QueueOk(t, p)
    {
      assert QueueOk(s, p);
      QueueKept(s, t, c, p);
    }
  }

  /** What a call is charged for is in use. */
  lemma ChargedIsInUse(s: State, c: nat, j: nat)
    requires Core(s) && c < |s.calls| && j < Held(s.calls[c]) <= |s.calls[c].claims|
    ensures var cl := s.calls[c].claims[j]; cl.r in s.budgets && 0 < cl.n <= s.budgets[cl.r].cur
  {
    var x := s.calls[c];
    assert ValidOperation(x, s.budgets);
    var r := x.claims[j].r;
    UnitsHeld(x.claims, Held(x), j);
    forall i | 0 <= i < |s.calls|
      ensures UnitsOf(r)(s.calls[i]) >= 0
    {
      assert ValidOperation(s.calls[i], s.budgets);
      UnitsBounds(s.calls[i].claims, Held(s.calls[i]), r);
    }
    TotalAtLeast(s.calls, c, UnitsOf(r));
  }

  /** The claim a step is about is a valid claim of a sound call. */
  predicate OnClaim(s: State, c: nat, i: nat, r: string, n: int) {
    c < |s.calls| && i < |s.calls[c].claims| && s.calls[c].claims[i] == Claim(r, n) && r in s.budgets
  }

  lemma LoadKeepsCore(s: State, c: nat, r: string)
    requires Core(s) && c < |s.calls| && s.calls[c].pc.Claiming? && s.calls[c].mode == Reject
    requires s.calls[c].pc.i < |s.calls[c].claims| && r in s.budgets
    ensures Core(LoadMove(s, c, r))
  {
    assert CallOk(s.calls[c]);
    QuietMove(s, LoadMove(s, c, r), c);
  }

  lemma CallFacts(s: State, c: nat, r: string)
    requires Core(s) && c < |s.calls| && r in s.budgets
    ensures CallOk(s.calls[c]) && ValidOperation(s.calls[c], s.budgets) && B.Sane(s.budgets[r])
  {
  }

  /** A call that takes its next claim is charged that much more. */
  lemma OneMoreCharge(x: Call, y: Call, r: string, n: int)
    requires y.claims == x.claims && 0 <= Held(x) < |x.claims| && Held(y) == Held(x) + 1
             && x.claims[Held(x)] == Claim(r, n)
    ensures Recharged(x, y, r, n) && Recharged(y, x, r, -n)
  {
    forall p
      ensures UnitsOf(p)(y) == UnitsOf(p)(x) + if p == r then n else 0
    {
      UnitsStep(x.claims, Held(x), p);
    }
  }

  /** A claim that fits is charged, and the call goes on to the next. */
  lemma GrabKeepsCore(s: State, t: State, c: nat, i: nat, r: string, n: int)
    requires Core(s) && c < |s.calls| && OnClaim(s, c, i, r, n) && B.Fits(s.budgets[r], n)
    requires s.calls[c].pc == Claiming(i) || s.calls[c].pc == Trying(i)
    requires t == Charge(GoTo(s, c, Claiming(i + 1)), c, r, n)
    ensures Core(t)
  {
    CallFacts(s, c, r);
    OneMoreCharge(s.calls[c], t.calls[c], r, n);
    ChargeKeepsCore(s, t, c, r, n);
  }

  lemma TryKeepsCore(s: State, c: nat, r: string, n: int)
    requires Core(s) && c < |s.calls| && s.calls[c].pc.Trying? && OnClaim(s, c, s.calls[c].pc.i, r, n)
    ensures Core(TryMove(s, c, r, n).0)
  {
    var t := TryMove(s, c, r, n).0;
    if B.Fits(s.budgets[r], n) {
      GrabKeepsCore(s, t, c, s.calls[c].pc.i, r, n);
    } else {
      GiveUpKeepsCore(s, t, c, r);
    }
  }

  /** A call that gives up keeps what it has until it releases it. */
  lemma GiveUpKeepsCore(s: State, t: State, c: nat, r: string)
    requires Core(s) && c < |s.calls| && r in s.budgets && (s.calls[c].pc.Trying? || s.calls[c].pc.Claiming?)
    requires t == GoTo(s, c, Releasing(s.calls[c].pc.i, true))
    ensures Core(t)
  {
    CallFacts(s, c, r);
    QuietMove(s, t, c);
  }

  /** The last claim still held is given back. */
  lemma RepayKeepsCore(s: State, t: State, c: nat, r: string, n: int)
    requires Core(s) && c < |s.calls| && 0 < Held(s.calls[c]) && OnClaim(s, c, Held(s.calls[c]) - 1, r, n)
    requires c < |t.calls| && t.calls == s.calls[c := t.calls[c]]
    requires t.budgets == s.budgets[r := s.budgets[r].(cur := s.budgets[r].cur - n)]
    requires SameOperation(t.calls[c], s.calls[c]) && CallOk(t.calls[c]) && Held(t.calls[c]) == Held(s.calls[c]) - 1
    requires !Queued(s.calls[c]) && !Queued(t.calls[c])
    ensures Core(t) && n <= s.budgets[r].cur
  {
    CallFacts(s, c, r);
    ChargedIsInUse(s, c, Held(s.calls[c]) - 1);
    OneMoreCharge(t.calls[c], s.calls[c], r, n);
    ChargeKeepsCore(s, t, c, r, -n);
  }

  lemma ReleaseKeepsCore(s: State, c: nat, r: string, n: int)
    requires Core(s) && c < |s.calls| && s.calls[c].pc.Releasing? && s.calls[c].pc.i > 0
    requires OnClaim(s, c, s.calls[c].pc.i - 1, r, n)
    ensures Core(ReleaseMove(s, c, r, n).0)
    ensures n <= s.budgets[r].cur
  {
    CallFacts(s, c, r);
    RepayKeepsCore(s, ReleaseMove(s, c, r, n).0, c, r, n);
  }

  lemma AcquireKeepsCore(s: State, c: nat, r: string, n: int)
    requires Core(s) && c < |s.calls| && s.calls[c].pc.Claiming? && s.calls[c].mode == Wait
    requires OnClaim(s, c, s.calls[c].pc.i, r, n)
    ensures Core(AcquireMove(s, c, r, n).0)
  {
    var t := AcquireMove(s, c, r, n).0;
    if B.Fits(s.budgets[r], n) {
      GrabKeepsCore(s, t, c, s.calls[c].pc.i, r, n);
    } else if s.budgets[r].closed || s.calls[c].ended {
      GiveUpKeepsCore(s, t, c, r);
    } else {
      EnqueueKeepsCore(s, c, r, n);
    }
  }

  lemma EnqueueKeepsCore(s: State, c: nat, r: string, n: int)
    requires Core(s) && c < |s.calls| && s.calls[c].pc.Claiming? && s.calls[c].mode == Wait
    requires OnClaim(s, c, s.calls[c].pc.i, r, n) && !s.budgets[r].closed
    ensures Core(QueueMove(s, c, r, n))
  {
    var t := QueueMove(s, c, r, n);
    CallFacts(s, c, r);
    CallsKept(s, t, c);
    SameCharge(s.calls[c], t.calls[c]);
    LedgerKept(s, t, c, "", 0);
    EnqueueKeepsQueues(s, c, r, n);
    EnqueueKeepsSane(s, c, r, n);
  }

  lemma EnqueueKeepsQueues(s: State, c: nat, r: string, n: int)
    requires Queues(s) && c < |s.calls| && s.calls[c].pc.Claiming? && OnClaim(s, c, s.calls[c].pc.i, r, n)
    ensures Queues(QueueMove(s, c, r, n))
  {
    var t := QueueMove(s, c, r, n);
    forall p | p in t.budgets
      ensures QueueOk(t, p)
    {
      assert QueueOk(s, p);
      if p == r {
        Enqueued(s, t, c, r);
      } else {
        QueueKept(s, t, c, p);
      }
    }
  }

  lemma EnqueueKeepsSane(s: State, c: nat, r: string, n: int)
    requires AllSane(s) && c < |s.calls| && s.calls[c].pc.Claiming? && OnClaim(s, c, s.calls[c].pc.i, r, n)
    requires !s.budgets[r].closed && 0 < n <= s.budgets[r].size
    ensures AllSane(QueueMove(s, c, r, n))
  {
    assert B.Sane(s.budgets[r]);
  }

  lemma Enqueued(s: State, t: State, c: nat, r: string)
    requires r in s.budgets && r in t.budgets && QueueOk(s, r)
    requires c < |s.calls| && c < |t.calls| && t.calls == s.calls[c := t.calls[c]]
    requires !Queued(s.calls[c])
    requires Awaits(t.calls[c], r)
    requires t.budgets[r].queue == s.budgets[r].queue + [B.Ticket(c, t.calls[c].claims[ClaimIndex(t.calls[c])].n)]
    ensures QueueOk(t, r)
  {
    var q, q' := s.budgets[r].queue, t.budgets[r].queue;
    forall k | 0 <= k < |q'|
      ensures TicketOk(t, r, q'[k])
      ensures k < |q| ==> q'[k].id != c
    {
      if k < |q| {
        assert q'[k] == q[k] && TicketOk(s, r, q[k]);
      }
    }
    forall i | 0 <= i < |t.calls| && Awaits(t.calls[i], r)
      ensures B.InQueue(q', i)
    {
      if i == c {
        assert q'[|q|].id == c;
      } else {
        assert B.InQueue(q, i);
        var k :| 0 <= k < |q| && q[k].id == i;
        assert q'[k].id == i;
      }
    }
  }
  /** A queued call finds itself in the queue, and only once. */
  lemma FindsItself(s: State, c: nat, r: string)
    requires Core(s) && c < |s.calls| && r in s.budgets && Awaits(s.calls[c], r)
    ensures var q := s.budgets[r].queue; var k := B.Find(q, c);
            k < |q| && q[k].id == c && (forall j :: 0 <= j < |q| && j != k ==> q[j].id != c)
            && q[k].n == s.calls[c].claims[ClaimIndex(s.calls[c])].n
  {
    var q := s.budgets[r].queue;
    assert QueueOk(s, r) && B.InQueue(q, c);
    assert TicketOk(s, r, q[B.Find(q, c)]);
  }

  lemma Dequeued(s: State, t: State, c: nat, r: string, k: nat)
    requires r in s.budgets && r in t.budgets && QueueOk(s, r)
    requires c < |s.calls| && c < |t.calls| && t.calls == s.calls[c := t.calls[c]] && !Queued(t.calls[c])
    requires k < |s.budgets[r].queue| && s.budgets[r].queue[k].id == c
    requires |t.budgets[r].queue| == |s.budgets[r].queue| - 1
    requires forall j :: 0 <= j < |t.budgets[r].queue| ==>
               t.budgets[r].queue[j] == s.budgets[r].queue[if j < k then j else j + 1]
    ensures QueueOk(t, r)
  {
    var q, q' := s.budgets[r].queue, t.budgets[r].queue;
    forall j | 0 <= j < |q'|
      ensures TicketOk(t, r, q'[j])
    {
      assert TicketOk(s, r, q[if j < k then j else j + 1]);
    }
    forall i | 0 <= i < |t.calls| && Awaits(t.calls[i], r)
      ensures B.InQueue(q', i)
    {
      assert B.InQueue(q, i);
      var j :| 0 <= j < |q| && q[j].id == i;
      assert q'[if j < k then j else j - 1].id == i;
    }
  }

  lemma SaneWithout(b: B.Budget<int>, k: nat)
    requires B.Sane(b) && k < |b.queue|
    ensures B.Sane(b.(queue := Without(b.queue, k)))
  {
  }

  lemma DequeueKeepsQueues(s: State, c: nat, r: string, k: nat)
    requires Queues(s) && c < |s.calls| && s.calls[c].pc.Leaving? && r in s.budgets && Awaits(s.calls[c], r)
    requires k < |s.budgets[r].queue| && s.budgets[r].queue[k].id == c
    ensures Queues(DequeueMove(s, c, r, k))
  {
    var t := DequeueMove(s, c, r, k);
    forall p | p in t.budgets
      ensures QueueOk(t, p)
    {
      assert QueueOk(s, p);
      if p == r {
        Dequeued(s, t, c, r, k);
      } else {
        QueueKept(s, t, c, p);
      }
    }
  }

  lemma DequeueKeepsCore(s: State, c: nat, r: string, k: nat)
    requires Core(s) && c < |s.calls| && s.calls[c].pc.Leaving? && r in s.budgets && Awaits(s.calls[c], r)
    requires k < |s.budgets[r].queue| && s.budgets[r].queue[k].id == c
    ensures Core(DequeueMove(s, c, r, k))
  {
    var t := DequeueMove(s, c, r, k);
    assert CallOk(s.calls[c]) && B.Sane(s.budgets[r]);
    CallsKept(s, t, c);
    LedgerKept(s, t, c, "", 0);
    DequeueKeepsQueues(s, c, r, k);
    SaneWithout(s.budgets[r], k);
  }

  lemma LeaveKeepsCore(s: State, c: nat, r: string, n: int)
    requires Core(s) && c < |s.calls| && s.calls[c].pc.Leaving?
    requires OnClaim(s, c, s.calls[c].pc.i, r, n)
    ensures Core(LeaveMove(s, c, r, n).0)
    ensures s.calls[c].state == Granted ==> n <= s.budgets[r].cur
  {
    var x := s.calls[c];
    if x.state == Waiting {
      FindsItself(s, c, r);
      DequeueKeepsCore(s, c, r, B.Find(s.budgets[r].queue, c));
    } else if x.state == Granted {
      ReturnKeepsCore(s, c, r, n);
    } else {
      CallFacts(s, c, r);
      QuietMove(s, LeaveMove(s, c, r, n).0, c);
    }
  }

  lemma ReturnKeepsCore(s: State, c: nat, r: string, n: int)
    requires Core(s) && c < |s.calls| && s.calls[c].pc.Leaving? && s.calls[c].state == Granted
    requires OnClaim(s, c, s.calls[c].pc.i, r, n)
    ensures Core(LeaveMove(s, c, r, n).0) && n <= s.budgets[r].cur
  {
    CallFacts(s, c, r);
    RepayKeepsCore(s, LeaveMove(s, c, r, n).0, c, r, n);
  }

  lemma StepClaimOk(s: State, step: Step)
    requires Core(s) && IsClaimStep(step) && Can(s, step)
    ensures var Claim(r, n) := StepClaim(s, step);
            OnClaim(s, step.c, if step.Release? then s.calls[step.c].pc.i - 1 else s.calls[step.c].pc.i, r, n)
  {
    assert CallOk(s.calls[step.c]) && ValidOperation(s.calls[step.c], s.budgets);
  }

  lemma MoveClaimKeepsCore(s: State, step: Step)
    requires Core(s) && IsClaimStep(step) && Can(s, step)
    ensures Core(MoveClaim(s, step).0)
  {
    StepClaimOk(s, step);
    assert CallOk(s.calls[step.c]);
    var Claim(r, n) := StepClaim(s, step);
    match step
    case Load(c) => LoadKeepsCore(s, c, r);
    case Try(c) => TryKeepsCore(s, c, r, n);
    case Acquire(c) => AcquireKeepsCore(s, c, r, n);
    case Leave(c) => LeaveKeepsCore(s, c, r, n);
    case Release(c) => ReleaseKeepsCore(s, c, r, n);
  }
}
