/** What a call was charged and paid back, step by step: the history agrees
    with where the call is, so nothing is lost, taken twice or returned twice. */
module Books {
  import opened Sequences
  import opened Totals
  import opened Claims
  import opened Protocol
  import opened Invariant
  import opened KeyInvariant
  import opened GateInvariant
  import opened Safety
  import opened Progress
  import B = Budgets

  // ---------- the books of one call ----------

  /** The claims from the last down to claim h, in that order. */
  function Back(cs: seq<Claim>, h: nat): seq<Claim>
    decreases |cs| - h
  {
    if h < |cs| then Back(cs, h + 1) + [cs[h]] else []
  }

  lemma {:induction false} BackAt(cs: seq<Claim>, h: nat, k: nat)
    requires h + k < |cs|
    ensures |Back(cs, h)| == |cs| - h && Back(cs, h)[k] == cs[|cs| - 1 - k]
    decreases |cs| - h
  {
    if h + 1 < |cs| {
      BackAt(cs, h + 1, if h + 1 + k < |cs| then k else 0);
    }
  }

  /** Not yet giving anything back. */
  predicate Gathering(pc: Pc) {
    BeforeKey(pc) || AtKey(pc) || pc.Claiming? || pc.Trying? || pc.Parked? || pc.Woken? || pc.Leaving?
    || pc.Looping? || pc.Counting? || pc.Handling?
  }

  predicate BeforeKey(pc: Pc) {
    pc.Idle? || pc.Turned? || pc.Entered? || pc.Admitting? || pc.Locking?
  }

  /** Claims are taken first to last and given back last to first. */
  predicate ClaimsBooked(x: Call) {
    var b, h := x.book, Held(x);
    && |b.took| <= |x.claims| && b.took == x.claims[..|b.took|]
    && 0 <= h <= |b.took| && b.gave == Back(b.took, h)
    && (Gathering(x.pc) ==> h == |b.took|)
    && (x.tries > 0 ==> |b.took| == |x.claims|)
  }

  /** The key is taken once and given up once. */
  predicate KeyBooked(x: Call) {
    var b := x.book;
    && b.locks == b.unlocks + (if OwnsKey(x) then 1 else 0)
    && b.locks <= 1
    && (BeforeKey(x.pc) || (AtKey(x.pc) && x.state != Granted) || x.key == "" ==> b.locks == 0)
    && (x.tries > 0 && x.key != "" ==> b.locks == 1)
  }

  predicate Booked(x: Call) {
    ClaimsBooked(x) && KeyBooked(x)
  }

  predicate AllBooked(s: State) {
    forall c :: 0 <= c < |s.calls| ==> Booked(s.calls[c])
  }

  // ---------- a call's own steps ----------

  lemma ParkStepKeepsBook(x: Call, step: Step, w: int, s: State)
    requires IsGateStep(step) && CallCan(s, x, step) && CallOk(x) && Booked(x) && IsParkStep(step)
    ensures Booked(NextCall(x, step, w))
  {
    if IsKeyPark(step) {
      KeyParkKeepsBook(x, step, w, s);
    } else if IsClaimPark(step) {
      ClaimParkKeepsBook(x, step, w, s);
    } else {
      AttemptKeepsBook(x, step, w, s);
    }
  }

  lemma KeyParkKeepsBook(x: Call, step: Step, w: int, s: State)
    requires IsGateStep(step) && CallCan(s, x, step) && CallOk(x) && Booked(x) && IsKeyPark(step)
    ensures Booked(NextCall(x, step, w))
  {
  }

  lemma ClaimParkKeepsBook(x: Call, step: Step, w: int, s: State)
    requires IsGateStep(step) && CallCan(s, x, step) && CallOk(x) && Booked(x) && IsClaimPark(step)
    ensures Booked(NextCall(x, step, w))
  {
  }

  lemma AttemptKeepsBook(x: Call, step: Step, w: int, s: State)
    requires IsGateStep(step) && CallCan(s, x, step) && CallOk(x) && Booked(x) && IsAttemptStep(step)
    ensures Booked(NextCall(x, step, w))
  {
    if step.Handler? {
      HandlerKeepsBook(x, step, w, s);
    }
  }

  lemma HandlerKeepsBook(x: Call, step: Step, w: int, s: State)
    requires IsGateStep(step) && CallCan(s, x, step) && CallOk(x) && Booked(x) && step.Handler?
    ensures Booked(NextCall(x, step, w))
  {
  }

  predicate IsArrival(step: Step) {
    step.Enter? || step.TurnAway? || step.CountTurned? || step.CountAdmitted? || step.Check? || step.Refuse?
  }

  lemma ArrivalKeepsBook(x: Call, step: Step, w: int, s: State)
    requires IsGateStep(step) && CallCan(s, x, step) && CallOk(x) && Booked(x) && IsArrival(step)
    ensures Booked(NextCall(x, step, w))
  {
  }

  lemma DepartureKeepsBook(x: Call, step: Step, w: int, s: State)
    requires IsGateStep(step) && CallCan(s, x, step) && CallOk(x) && Booked(x)
    requires !IsArrival(step) && !IsParkStep(step)
    ensures Booked(NextCall(x, step, w))
  {
  }

  lemma GateStepKeepsBook(x: Call, step: Step, w: int, s: State)
    requires IsGateStep(step) && CallCan(s, x, step) && CallOk(x) && Booked(x)
    ensures Booked(NextCall(x, step, w))
  {
    if IsArrival(step) {
      ArrivalKeepsBook(x, step, w, s);
    } else if IsParkStep(step) {
      ParkStepKeepsBook(x, step, w, s);
    } else {
      DepartureKeepsBook(x, step, w, s);
    }
  }

  /** One more claim is charged to the call. */
  lemma TakingIsBooked(x: Call, y: Call)
    requires ClaimsBooked(x) && Gathering(x.pc) && Held(x) < |x.claims| && x.tries == 0
    requires y.claims == x.claims && y.tries == x.tries && Held(y) == Held(x) + 1
    requires y.book == Owing(x.book, x.claims[Held(x)]).(locks := y.book.locks, unlocks := y.book.unlocks)
    ensures ClaimsBooked(y)
  {
    assert y.book.took == x.claims[..Held(x) + 1];
  }

  /** The last claim still held is paid back. */
  lemma GivingIsBooked(x: Call, y: Call)
    requires ClaimsBooked(x) && 0 < Held(x) && !Gathering(y.pc)
    requires y.claims == x.claims && y.tries == x.tries && Held(y) == Held(x) - 1
    requires y.book == Repaid(x.book, x.claims[Held(x) - 1]).(locks := y.book.locks, unlocks := y.book.unlocks)
    ensures ClaimsBooked(y)
  {
    assert x.book.took[Held(y)] == x.claims[Held(y)];
  }

  lemma LoadKeepsBook(s: State, c: nat, r: string)
    requires c < |s.calls| && s.calls[c].pc.Claiming? && r in s.budgets
    requires Booked(s.calls[c]) && CallOk(s.calls[c])
    ensures Booked(LoadMove(s, c, r).calls[c])
  {
  }

  lemma TryKeepsBook(s: State, c: nat, r: string, n: int)
    requires c < |s.calls| && s.calls[c].pc.Trying? && Invariant.OnClaim(s, c, s.calls[c].pc.i, r, n)
    requires Booked(s.calls[c]) && CallOk(s.calls[c])
    ensures Booked(TryMove(s, c, r, n).0.calls[c])
  {
    if B.Fits(s.budgets[r], n) {
      TakingIsBooked(s.calls[c], TryMove(s, c, r, n).0.calls[c]);
    }
  }

  lemma AcquireKeepsBook(s: State, c: nat, r: string, n: int)
    requires c < |s.calls| && s.calls[c].pc.Claiming? && Invariant.OnClaim(s, c, s.calls[c].pc.i, r, n)
    requires Booked(s.calls[c]) && CallOk(s.calls[c])
    ensures Booked(AcquireMove(s, c, r, n).0.calls[c])
  {
    if B.Fits(s.budgets[r], n) {
      TakingIsBooked(s.calls[c], AcquireMove(s, c, r, n).0.calls[c]);
    }
  }

  lemma LeaveKeepsBook(s: State, c: nat, r: string, n: int)
    requires c < |s.calls| && s.calls[c].pc.Leaving? && Invariant.OnClaim(s, c, s.calls[c].pc.i, r, n)
    requires Booked(s.calls[c]) && CallOk(s.calls[c])
    ensures Booked(LeaveMove(s, c, r, n).0.calls[c])
  {
    if s.calls[c].state == Granted {
      GivingIsBooked(s.calls[c], LeaveMove(s, c, r, n).0.calls[c]);
    }
  }

  lemma ReleaseKeepsBook(s: State, c: nat, r: string, n: int)
    requires c < |s.calls| && s.calls[c].pc.Releasing? && s.calls[c].pc.i > 0
             && Invariant.OnClaim(s, c, s.calls[c].pc.i - 1, r, n)
    requires Booked(s.calls[c]) && CallOk(s.calls[c])
    ensures Booked(ReleaseMove(s, c, r, n).0.calls[c])
  {
    GivingIsBooked(s.calls[c], ReleaseMove(s, c, r, n).0.calls[c]);
  }

  lemma ClaimMoveKeepsBook(s: State, step: Step)
    requires Core(s) && IsClaimStep(step) && Can(s, step) && Booked(s.calls[step.c])
    ensures step.c < |MoveClaim(s, step).0.calls| && Booked(MoveClaim(s, step).0.calls[step.c])
  {
    StepClaimOk(s, step);
    CallFacts(s, step.c, StepClaim(s, step).r);
    if step.Load? || step.Try? {
      TryingKeepsBook(s, step);
    } else if step.Acquire? || step.Leave? {
      WaitingKeepsBook(s, step);
    } else {
      ReleasingKeepsBook(s, step);
    }
  }

  /** The step is about claim i of its call, which is (r, n). */
  predicate StepsOn(s: State, step: Step) {
    && IsClaimStep(step) && Can(s, step) && Booked(s.calls[step.c]) && CallOk(s.calls[step.c])
    && var Claim(r, n) := StepClaim(s, step); var i := s.calls[step.c].pc.i;
       Invariant.OnClaim(s, step.c, if step.Release? then i - 1 else i, r, n)
  }

  lemma TryingKeepsBook(s: State, step: Step)
    requires StepsOn(s, step) && (step.Load? || step.Try?)
    ensures step.c < |MoveClaim(s, step).0.calls| && Booked(MoveClaim(s, step).0.calls[step.c])
  {
    var Claim(r, n) := StepClaim(s, step);
    if step.Load? {
      LoadKeepsBook(s, step.c, r);
    } else {
      TryKeepsBook(s, step.c, r, n);
    }
  }

  lemma WaitingKeepsBook(s: State, step: Step)
    requires StepsOn(s, step) && (step.Acquire? || step.Leave?)
    ensures step.c < |MoveClaim(s, step).0.calls| && Booked(MoveClaim(s, step).0.calls[step.c])
  {
    var Claim(r, n) := StepClaim(s, step);
    if step.Acquire? {
      AcquireKeepsBook(s, step.c, r, n);
    } else {
      LeaveKeepsBook(s, step.c, r, n);
    }
  }

  lemma ReleasingKeepsBook(s: State, step: Step)
    requires StepsOn(s, step) && step.Release?
    ensures step.c < |MoveClaim(s, step).0.calls| && Booked(MoveClaim(s, step).0.calls[step.c])
  {
    var Claim(r, n) := StepClaim(s, step);
    ReleaseKeepsBook(s, step.c, r, n);
  }

  lemma LockKeepsBook(s: State, c: nat, e: nat)
    requires Can(s, Lock(c, e)) && Booked(s.calls[c]) && CallOk(s.calls[c])
    ensures Booked(LockMove(s, c, e).calls[c])
  {
    LockedIsBooked(s.calls[c], LockMove(s, c, e).calls[c]);
  }

  /** The key taken, queued for, or refused. */
  lemma LockedIsBooked(x: Call, y: Call)
    requires Booked(x) && x.pc.Locking? && x.key != "" && x.tries == 0
    requires y.claims == x.claims && y.key == x.key && y.tries == x.tries
    requires || (y.pc == Claiming(0) && y.book == WithKey(x.book))
             || (y.book == x.book && ((y.pc.KeyParked? && y.state == Waiting) || y.pc.Refusing? || y.pc.Locking?))
    ensures Booked(y)
  {
  }

  lemma LeaveKeyKeepsBook(s: State, c: nat)
    requires c < |s.calls| && s.calls[c].pc.KeyLeaving? && Booked(s.calls[c]) && CallOk(s.calls[c])
    ensures Booked(LeaveKeyMove(s, c).0.calls[c])
  {
  }

  lemma UnlockKeepsBook(s: State, c: nat)
    requires c < |s.calls| && s.calls[c].pc.Releasing? && s.calls[c].pc.i == 0
    requires Booked(s.calls[c]) && CallOk(s.calls[c])
    ensures Booked(UnlockMove(s, c).0.calls[c])
  {
  }

  lemma KeyMoveKeepsBook(s: State, step: Step)
    requires IsKeyStep(step) && Can(s, step) && Booked(s.calls[step.c]) && CallOk(s.calls[step.c])
    ensures Booked(MoveKey(s, step).0.calls[step.c])
  {
    match step
    case Lock(c, e) => LockKeepsBook(s, c, e);
    case LeaveKey(c) => LeaveKeyKeepsBook(s, c);
    case Unlock(c) => UnlockKeepsBook(s, c);
  }

  // ---------- being woken ----------

  lemma WakingIsBooked(x: Call, verdict: WaitState)
    requires Booked(x) && CallOk(x) && Queued(x) && verdict != Waiting
    ensures Booked(WokenBy(x, verdict))
  {
    if verdict == Granted {
      TakingIsBooked(x, WokenBy(x, verdict));
    }
  }

  lemma KeyWakingIsBooked(x: Call, verdict: WaitState)
    requires Booked(x) && CallOk(x) && AwaitsKey(x) && verdict != Waiting
    ensures Booked(KeyWokenBy(x, verdict))
  {
  }

  lemma BudgetCompletionKeepsBooks(s: State, rest: Rest)
    requires Core(s) && AllBooked(s) && Applies(s, rest) && (rest.Refresh? || rest.Serve? || rest.Withdraw?)
    ensures AllBooked(Complete(s, rest))
  {
    var t, verdict := Complete(s, rest), if rest.Withdraw? then Withdrawn else Granted;
    BudgetCompletionWakes(s, rest);
    forall i | 0 <= i < |t.calls|
      ensures Booked(t.calls[i])
    {
      assert NudgedBy(s.calls[i], t.calls[i], verdict) && CallOk(s.calls[i]);
      if t.calls[i] != s.calls[i] {
        WakingIsBooked(s.calls[i], verdict);
      }
    }
  }

  lemma HandOffKeepsBooks(s: State, e: nat, gap: int)
    requires Keyed(s, gap) && CallsOk(s) && AllBooked(s)
    ensures AllBooked(HandOff(s, e))
  {
    var t := HandOff(s, e);
    if e in s.locker.cells && s.locker.cells[e].queue != [] {
      var w := s.locker.cells[e].queue[0];
      assert KeyQueueOk(s, e) && WaiterOk(s, e, w);
      assert CallOk(s.calls[w]);
      KeyWakingIsBooked(s.calls[w], Granted);
    }
  }

  lemma WithdrawAllKeepsBooks(s: State)
    requires Keyed(s, -1) && CallsOk(s) && AllBooked(s)
    ensures AllBooked(WithdrawAllKeys(s))
  {
    var t := WithdrawAllKeys(s);
    forall i: nat | i < |t.calls|
      ensures Booked(t.calls[i])
    {
      WithdrawAllShape(s, i);
      assert CallOk(s.calls[i]);
      if AwaitsKey(s.calls[i]) {
        KeyWakingIsBooked(s.calls[i], Withdrawn);
      }
    }
  }

  // ---------- every step ----------

  lemma OneCallKeepsBooks(s: State, t: State, c: nat)
    requires AllBooked(s) && OneCall(s, t, c) && Booked(t.calls[c])
    ensures AllBooked(t)
  {
  }

  lemma ClaimStepKeepsBooks(s: State, step: Step)
    requires Core(s) && AllSettled(s) && Reasoned(s) && AllBooked(s) && IsClaimStep(step) && Can(s, step)
    ensures AllBooked(Do(s, step))
  {
    var (t, rest) := MoveClaim(s, step);
    ClaimMoveKeepsBook(s, step);
    ClaimMoveShape(s, step);
    OneCallKeepsBooks(s, t, step.c);
    ClaimStepSplits(s, step);
    if rest != Nothing {
      BudgetCompletionKeepsBooks(t, rest);
    }
  }

  lemma KeyStepKeepsBooks(s: State, step: Step)
    requires Inv(s) && AllBooked(s) && IsKeyStep(step) && Can(s, step)
    ensures AllBooked(Do(s, step))
  {
    var (t, rest) := MoveKey(s, step);
    KeyStepIsItsMove(s, step);
    KeyMoveKeepsBooks(s, step);
    if rest.HandKey? {
      HandedOnSoundly(s, step);
      HandOffKeepsBooks(t, rest.e, rest.e);
    }
  }

  lemma KeyMoveKeepsBooks(s: State, step: Step)
    requires MapOk(s.locker) && CallsOk(s) && AllBooked(s) && IsKeyStep(step) && Can(s, step)
    ensures AllBooked(MoveKey(s, step).0) && !MoveKey(s, step).1.WithdrawKeys?
    ensures MoveKey(s, step).1.Nothing? || MoveKey(s, step).1.HandKey?
  {
    assert CallOk(s.calls[step.c]);
    KeyMoveKeepsBook(s, step);
    KeyStepAges(s, step);
    OneCallKeepsBooks(s, MoveKey(s, step).0, step.c);
  }

  lemma HandedOnSoundly(s: State, step: Step)
    requires Inv(s) && IsKeyStep(step) && Can(s, step) && MoveKey(s, step).1.HandKey?
    ensures var (t, rest) := MoveKey(s, step); Keyed(t, rest.e) && CallsOk(t)
  {
    var x := s.calls[step.c];
    assert CallOk(x) && ReasonOk(x, Stopped(s.word));
    if step.LeaveKey? {
      LeaveKeyShape(s, step.c);
      LeaveKeyKeepsKeyed(s, step.c);
    } else {
      UnlockShape(s, step.c);
      UnlockKeepsKeyed(s, step.c);
    }
    QuietMove(s, MoveKey(s, step).0, step.c);
  }

  lemma DownStepKeepsBooks(s: State, step: Step)
    requires Inv(s) && AllBooked(s) && !IsCallStep(step) && Can(s, step)
    ensures AllBooked(Do(s, step))
  {
    var (t, rest) := MoveDown(s, step);
    DownMoveKeepsOuter(s, step);
    DownMoveShape(s, step);
    if rest.Withdraw? {
      BudgetCompletionKeepsBooks(t, rest);
    } else if rest.WithdrawKeys? {
      WithdrawAllKeepsBooks(t);
    }
  }

  lemma StepKeepsBooks(s: State, step: Step)
    requires Inv(s) && AllBooked(s) && Can(s, step)
    ensures AllBooked(Do(s, step))
  {
    if !IsCallStep(step) {
      DownStepKeepsBooks(s, step);
    } else if IsClaimStep(step) {
      ClaimStepKeepsBooks(s, step);
    } else if IsKeyStep(step) {
      KeyStepKeepsBooks(s, step);
    } else {
      GateMoveKeepsBooks(s, step);
    }
  }

  lemma GateMoveKeepsBooks(s: State, step: Step)
    requires CallsOk(s) && AllBooked(s) && IsGateStep(step) && Can(s, step)
    ensures AllBooked(Do(s, step))
  {
    GateCallKeepsBook(s, step);
    GateStepIsItsMove(s, step);
    GateMoveLeavesOthers(s, step);
    OneBookKept(s, MoveGate(s, step), step.c, NextCall(s.calls[step.c], step, s.word));
  }

  lemma GateCallKeepsBook(s: State, step: Step)
    requires CallsOk(s) && AllBooked(s) && IsGateStep(step) && Can(s, step)
    ensures Booked(NextCall(s.calls[step.c], step, s.word))
  {
    assert CallOk(s.calls[step.c]) && Booked(s.calls[step.c]);
    GateStepKeepsBook(s.calls[step.c], step, s.word, s);
  }

  lemma OneBookKept(s: State, t: State, c: nat, y: Call)
    requires AllBooked(s) && c < |s.calls| && t.calls == s.calls[c := y] && Booked(y)
    ensures AllBooked(t)
  {
  }

  lemma RunStepKeepsBooks(ss: seq<State>, steps: seq<Step>, k: nat)
    requires Run(ss, steps) && Inv(ss[0]) && k < |steps| && AllBooked(ss[k])
    ensures AllBooked(ss[k + 1])
  {
    RunKeepsInv(ss, steps, k);
    assert RunAt(ss, steps, k);
    StepKeepsBooks(ss[k], steps[k]);
  }

  lemma RunKeepsBooks(ss: seq<State>, steps: seq<Step>, i: nat)
    requires Run(ss, steps) && Inv(ss[0]) && AllBooked(ss[0]) && i < |ss|
    ensures AllBooked(ss[i])
  {
    var holds := seq(i + 1, k requires 0 <= k <= i => AllBooked(ss[k]));
    forall k | 0 <= k < i && holds[k]
      ensures holds[k + 1]
    {
      RunStepKeepsBooks(ss, steps, k);
    }
    Along(holds, i);
  }

  lemma InitiallyBooked(s: State)
    requires Initial(s)
    ensures AllBooked(s)
  {
  }

  lemma ReachedIsSound(ss: seq<State>, steps: seq<Step>, i: nat)
    requires Run(ss, steps) && Initial(ss[0]) && i < |ss|
    ensures Inv(ss[i]) && AllBooked(ss[i])
  {
    InitialHolds(ss[0]);
    InitiallyBooked(ss[0]);
    RunKeepsInv(ss, steps, i);
    RunKeepsBooks(ss, steps, i);
  }

  // ---------- budgets and keys, by the books ----------

  /** Units of r the call has been charged for and not paid back. */
  function Outstanding(r: string): Call -> int {
    (x: Call) => Units(x.book.took, |x.book.took|, r) - Units(x.book.gave, |x.book.gave|, r)
  }

  lemma {:induction false} UnitsOfPrefix(cs: seq<Claim>, h: nat, m: nat, r: string)
    requires h <= m <= |cs|
    ensures Units(cs[..m], h, r) == Units(cs, h, r)
  {
    if h > 0 {
      UnitsOfPrefix(cs, h - 1, m, r);
    }
  }

  lemma {:induction false} UnitsOfBack(cs: seq<Claim>, h: nat, r: string)
    requires h <= |cs|
    ensures Units(Back(cs, h), |Back(cs, h)|, r) == Units(cs, |cs|, r) - Units(cs, h, r)
    decreases |cs| - h
  {
    if h < |cs| {
      UnitsOfBack(cs, h + 1, r);
      var b := Back(cs, h + 1);
      UnitsOfPrefix(b + [cs[h]], |b|, |b|, r);
      assert (b + [cs[h]])[..|b|] == b;
    }
  }

  lemma OutstandingIsHeld(x: Call, r: string)
    requires ClaimsBooked(x)
    ensures Outstanding(r)(x) == UnitsOf(r)(x)
  {
    var b := x.book;
    UnitsOfBack(b.took, Held(x), r);
    UnitsOfPrefix(x.claims, Held(x), |b.took|, r);
  }

  /** The locker names call c as the holder of its key. */
  predicate HoldsKey(s: State, c: nat)
    requires c < |s.calls|
  {
    var k, l := s.calls[c].key, s.locker;
    k != "" && k in l.m && l.m[k] in l.cells && l.cells[l.m[k]].owner == c
  }

  lemma OwnerIsNamed(s: State, c: nat)
    requires Keyed(s, -1) && c < |s.calls|
    ensures HoldsKey(s, c) <==> OwnsKey(s.calls[c])
  {
    var k, l := s.calls[c].key, s.locker;
    if OwnsKey(s.calls[c]) {
      assert HolderOk(s, c, -1);
    }
    if HoldsKey(s, c) {
      assert CellOk(l, l.m[k]) && OwnerOk(s, l.m[k]);
    }
  }
}
