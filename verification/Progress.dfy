/** No deadlock and no livelock: some call can always move, and only a bounded
    number of moves is ever left. */
module Progress {
  import opened Sequences
  import opened Totals
  import opened Claims
  import opened Protocol
  import opened Invariant
  import opened KeyInvariant
  import opened GateInvariant
  import opened Safety
  import B = Budgets

  // ---------- who can move ----------

  /** Parked, not woken, and its context still live. */
  predicate Blocked(c: Call) {
    (c.pc.Parked? || c.pc.KeyParked?) && c.state == Waiting && !c.ended
  }

  /** The call itself can take a step (a running handler may return). */
  ghost predicate CanMove(s: State, c: nat) {
    exists step :: IsCallStep(step) && !step.EndContext? && step.c == c && Can(s, step)
  }

  lemma {:induction false} Unused(xs: set<nat>) returns (n: nat)
    ensures forall x :: x in xs ==> x < n
    decreases |xs|
  {
    if xs == {} {
      n := 0;
    } else {
      var y :| y in xs;
      var m := Unused(xs - {y});
      n := if y < m then m else y + 1;
      assert forall x :: x in xs ==> x == y || x in xs - {y};
    }
  }

  /** The step a call that is not blocked takes next; e is an unused entry. */
  function NextStep(x: Call, c: nat, e: nat): Step {
    match x.pc
    case Idle => Enter(c)
    case Turned => TurnAway(c)
    case Entered => CountAdmitted(c)
    case Admitting => Check(c)
    case Locking => Lock(c, e)
    case KeyParked => if x.token then TakeKey(c) else QuitKey(c)
    case KeyWoken => SettleKey(c)
    case KeyLeaving(_) => LeaveKey(c)
    case Claiming(i) => if i == |x.claims| then Start(c) else if x.mode == Reject then Load(c) else Acquire(c)
    case Trying(_) => Try(c)
    case Parked(_) => if x.token then Take(c) else Quit(c)
    case Woken(_) => SettleClaim(c)
    case Leaving(_, _) => Leave(c)
    case Releasing(i, _) => if i > 0 then Release(c) else Unlock(c)
    case Refusing => Refuse(c)
    case Looping(_) => Loop(c)
    case Counting(_) => CountAttempt(c)
    case Handling(_) => Handler(c, Ok)
    case Exiting => Finish(c)
    case Departing => Depart(c)
    case Marking(_) => Mark(c)
    case Closing(_) => CloseDone(c)
    case Tallying => CountTurned(c)
    case Returned(_) => EndContext(c)
  }

  lemma NextStepIsEnabled(s: State, c: nat, e: nat)
    requires c < |s.calls| && CallOk(s.calls[c]) && e !in s.locker.cells
    requires !Blocked(s.calls[c]) && !s.calls[c].pc.Returned?
    requires s.calls[c].pc.Idle? ==> InFlightBits(s.word) + 1 < DRAINED
    ensures var step := NextStep(s.calls[c], c, e);
            IsCallStep(step) && !step.EndContext? && step.c == c && Can(s, step)
  {
    NextStepIsOwn(s.calls[c], c, e);
    NextStepCan(s, s.calls[c], c, e);
  }

  lemma NextStepIsOwn(x: Call, c: nat, e: nat)
    requires !x.pc.Returned?
    ensures var step := NextStep(x, c, e); IsCallStep(step) && !step.EndContext? && step.c == c
  {
  }

  lemma NextStepCan(s: State, x: Call, c: nat, e: nat)
    requires CallOk(x) && e !in s.locker.cells && !Blocked(x) && !x.pc.Returned?
    requires x.pc.Idle? ==> InFlightBits(s.word) + 1 < DRAINED
    ensures CallCan(s, x, NextStep(x, c, e))
  {
  }

  /** Nothing but an empty wait stops a call: no send or receive on a wake-up
      channel ever blocks, and no critical section waits for another. */
  lemma OnlyWaitersBlock(s: State, c: nat)
    requires Inv(s) && c < |s.calls| && !s.calls[c].pc.Idle? && !s.calls[c].pc.Returned?
    ensures CanMove(s, c) <==> !Blocked(s.calls[c])
  {
    assert CallOk(s.calls[c]);
    if !Blocked(s.calls[c]) {
      var e := Unused(s.locker.cells.Keys);
      NextStepIsEnabled(s, c, e);
    }
  }

  // ---------- deadlock freedom ----------

  function PartyOf(c: Call): Party {
    Party(c.claims, Held(c), c.key, OwnsKey(c),
          if c.pc.KeyParked? && AwaitsKey(c) then OnKey
          else if c.pc.Parked? && Queued(c) then OnClaim
          else Free)
  }

  function Parties(s: State): seq<Party> {
    seq(|s.calls|, i requires 0 <= i < |s.calls| => PartyOf(s.calls[i]))
  }

  /** A queued call's budget is in use by somebody. */
  lemma QueuedBehindUnits(s: State, c: nat, r: string)
    requires Core(s) && AllSettled(s) && c < |s.calls| && r in s.budgets && Awaits(s.calls[c], r)
    ensures exists h :: 0 <= h < |s.calls| && HoldsBudget(PartyOf(s.calls[h]), r)
  {
    assert QueueOk(s, r) && B.InQueue(s.budgets[r].queue, c) && B.Settled(s.budgets[r]);
    TotalWitness(s.calls, UnitsOf(r));
    var h :| 0 <= h < |s.calls| && UnitsOf(r)(s.calls[h]) > 0;
    assert ValidOperation(s.calls[h], s.budgets);
    UnitsBounds(s.calls[h].claims, Held(s.calls[h]), r);
    assert HoldsBudget(PartyOf(s.calls[h]), r);
  }

  lemma BehindAnOwner(s: State, c: nat)
    requires Keyed(s, -1) && c < |s.calls| && AwaitsKey(s.calls[c])
    ensures exists h :: 0 <= h < |s.calls| && OwnsKey(s.calls[h]) && s.calls[h].key == s.calls[c].key
  {
    assert QueuerOk(s, c);
    assert OwnerOk(s, s.calls[c].entry);
  }

  lemma PartyIsOrdered(s: State, p: nat)
    requires Core(s) && p < |s.calls|
    ensures var q := PartyOf(s.calls[p]);
            q.held <= |q.claims| && Ascending(q.claims)
            && forall i :: 0 <= i < |q.claims| ==> q.claims[i].r in s.budgets.Keys
  {
    assert CallOk(s.calls[p]) && ValidOperation(s.calls[p], s.budgets);
  }

  lemma KeyWaiterIsOrderly(s: State, p: nat)
    requires Keyed(s, -1) && p < |s.calls| && PartyOf(s.calls[p]).waits == OnKey
    ensures var ps := Parties(s);
            ps[p].held == 0 && !ps[p].owns && exists h :: 0 <= h < |ps| && ps[h].owns && ps[h].key == ps[p].key
  {
    BehindAnOwner(s, p);
    var h :| 0 <= h < |s.calls| && OwnsKey(s.calls[h]) && s.calls[h].key == s.calls[p].key;
    assert Parties(s)[h].owns;
  }

  lemma ClaimWaiterIsOrderly(s: State, p: nat)
    requires Core(s) && AllSettled(s) && p < |s.calls| && PartyOf(s.calls[p]).waits == OnClaim
    ensures var ps := Parties(s);
            ps[p].held < |ps[p].claims| && exists h :: 0 <= h < |ps| && HoldsBudget(ps[h], ps[p].claims[ps[p].held].r)
  {
    var x := s.calls[p];
    assert ValidOperation(x, s.budgets);
    var r := x.claims[x.pc.i].r;
    QueuedBehindUnits(s, p, r);
    var h :| 0 <= h < |s.calls| && HoldsBudget(PartyOf(s.calls[h]), r);
    assert HoldsBudget(Parties(s)[h], r);
  }

  lemma WaitingIsOrderly(s: State)
    requires Inv(s)
    ensures Orderly(Parties(s), s.budgets.Keys)
  {
    forall p: nat | p < |s.calls|
      ensures var q := PartyOf(s.calls[p]);
              q.held <= |q.claims| && Ascending(q.claims)
              && forall i :: 0 <= i < |q.claims| ==> q.claims[i].r in s.budgets.Keys
    {
      PartyIsOrdered(s, p);
    }
    forall p: nat | p < |s.calls| && PartyOf(s.calls[p]).waits == OnKey
      ensures var ps := Parties(s);
              ps[p].held == 0 && !ps[p].owns && exists h :: 0 <= h < |ps| && ps[h].owns && ps[h].key == ps[p].key
    {
      KeyWaiterIsOrderly(s, p);
    }
    forall p: nat | p < |s.calls| && PartyOf(s.calls[p]).waits == OnClaim
      ensures var ps := Parties(s);
              ps[p].held < |ps[p].claims| && exists h :: 0 <= h < |ps| && HoldsBudget(ps[h], ps[p].claims[ps[p].held].r)
    {
      ClaimWaiterIsOrderly(s, p);
    }
  }

  lemma FreePartyMoves(s: State, h: nat)
    requires Inv(s) && h < |s.calls| && PartyOf(s.calls[h]).waits == Free
    requires OwnsKey(s.calls[h]) || Held(s.calls[h]) > 0
    ensures InFlight(s.calls[h].pc) && CanMove(s, h)
  {
    assert CallOk(s.calls[h]);
    OnlyWaitersBlock(s, h);
  }

  /** Deadlock freedom: behind every parked call stands, however indirectly, a
      call in flight that holds its key or units and can move by itself. */
  lemma NoDeadlock(s: State, c: nat)
    requires Inv(s) && c < |s.calls| && Blocked(s.calls[c])
    ensures exists h: nat :: h < |s.calls| && InFlight(s.calls[h].pc) && CanMove(s, h)
                             && (OwnsKey(s.calls[h]) || Held(s.calls[h]) > 0)
  {
    var ps := Parties(s);
    WaitingIsOrderly(s);
    assert CallOk(s.calls[c]);
    assert ps[c].waits != Free;
    SomeoneIsFree(ps, s.budgets.Keys, c);
    var h: nat :| h < |ps| && ps[h].waits == Free && (ps[h].held > 0 || ps[h].owns);
    FreePartyMoves(s, h);
  }

  // ---------- every run is short ----------

  /** Program points in the order a call passes them. */
  function Rank(x: Call): int {
    var m, a := |x.claims|, x.attempts;
    var back := 40 + 5 * m + 3 * a;
    match x.pc
    case Idle => 0
    case Turned => 1
    case Entered => 1
    case Admitting => 2
    case Locking => 3
    case KeyParked => 4
    case KeyWoken => 5
    case KeyLeaving(_) => 6
    case Claiming(i) => 10 + 5 * i
    case Trying(i) => 11 + 5 * i
    case Parked(i) => 11 + 5 * i
    case Woken(i) => 12 + 5 * i
    case Leaving(i, _) => 13 + 5 * i
    case Looping(n) => 20 + 5 * m + 3 * n
    case Counting(n) => 21 + 5 * m + 3 * n
    case Handling(n) => 22 + 5 * m + 3 * n
    case Releasing(i, _) => back + m - i
    case Refusing => back + m + 1
    case Exiting => back + m + 2
    case Departing => back + m + 3
    case Marking(_) => back + m + 4
    case Closing(_) => back + m + 5
    case Tallying => back + m + 6
    case Returned(_) => back + m + 7
  }

  function Age(x: Call): int {
    Rank(x) + if x.ended then 1 else 0
  }

  function MaxAge(x: Call): int {
    48 + 6 * |x.claims| + 3 * x.attempts
  }

  lemma AgeIsBounded(x: Call)
    requires CallOk(x)
    ensures 0 <= Age(x) <= MaxAge(x)
  {
  }

  /** The call stands where it stood. */
  predicate SameAge(x: Call, y: Call) {
    SameOperation(x, y) && y.pc == x.pc && y.ended == x.ended && y.tries == x.tries && y.result == x.result
  }

  predicate Older(x: Call, y: Call) {
    SameOperation(x, y) && Age(y) > Age(x)
  }

  /** Exactly call c took a step. */
  predicate OneAged(s: State, t: State, c: nat) {
    && c < |s.calls| == |t.calls| && t.downs == s.downs && t.budgets.Keys == s.budgets.Keys
    && Older(s.calls[c], t.calls[c])
    && forall i :: 0 <= i < |s.calls| && i != c ==> SameAge(s.calls[i], t.calls[i])
  }

  /** No call took a step. */
  predicate NoneAged(s: State, t: State) {
    && |s.calls| == |t.calls| && t.downs == s.downs && t.budgets.Keys == s.budgets.Keys
    && forall i :: 0 <= i < |s.calls| ==> SameAge(s.calls[i], t.calls[i])
  }

  lemma ParkStepAges(x: Call, step: Step, w: int, s: State)
    requires IsGateStep(step) && CallCan(s, x, step) && CallOk(x) && IsParkStep(step)
    ensures Older(x, NextCall(x, step, w))
  {
    if IsKeyPark(step) {
      KeyParkAges(x, step, w, s);
    } else if IsClaimPark(step) {
      ClaimParkAges(x, step, w, s);
    } else {
      AttemptAges(x, step, w, s);
    }
  }

  lemma KeyParkAges(x: Call, step: Step, w: int, s: State)
    requires IsGateStep(step) && CallCan(s, x, step) && CallOk(x) && IsKeyPark(step)
    ensures Older(x, NextCall(x, step, w))
  {
  }

  lemma ClaimParkAges(x: Call, step: Step, w: int, s: State)
    requires IsGateStep(step) && CallCan(s, x, step) && CallOk(x) && IsClaimPark(step)
    ensures Older(x, NextCall(x, step, w))
  {
  }

  lemma AttemptAges(x: Call, step: Step, w: int, s: State)
    requires IsGateStep(step) && CallCan(s, x, step) && CallOk(x) && IsAttemptStep(step)
    ensures Older(x, NextCall(x, step, w))
  {
  }

  lemma GateStepAges(x: Call, step: Step, w: int, s: State)
    requires IsGateStep(step) && CallCan(s, x, step) && CallOk(x)
    ensures Older(x, NextCall(x, step, w))
  {
    if IsParkStep(step) {
      ParkStepAges(x, step, w, s);
    }
  }

  lemma AcquireAges(s: State, c: nat, r: string, n: int)
    requires c < |s.calls| && s.calls[c].pc.Claiming? && PcInRange(s.calls[c]) && r in s.budgets
    ensures Older(s.calls[c], AcquireMove(s, c, r, n).0.calls[c])
  {
  }

  lemma LeaveAges(s: State, c: nat, r: string, n: int)
    requires c < |s.calls| && s.calls[c].pc.Leaving? && PcInRange(s.calls[c]) && r in s.budgets
    ensures Older(s.calls[c], LeaveMove(s, c, r, n).0.calls[c])
  {
  }

  lemma ClaimStepAges(s: State, step: Step)
    requires Core(s) && Reasoned(s) && IsClaimStep(step) && Can(s, step)
    ensures var t := MoveClaim(s, step).0; step.c < |t.calls| && Older(s.calls[step.c], t.calls[step.c])
  {
    StepClaimOk(s, step);
    CallIsSound(s, step.c);
    if step.Load? || step.Try? {
      TryingAges(s, step);
    } else if step.Acquire? || step.Leave? {
      WaitingAges(s, step);
    } else {
      ReleasingAges(s, step);
    }
  }

  lemma TryingAges(s: State, step: Step)
    requires (step.Load? || step.Try?) && Can(s, step) && PcInRange(s.calls[step.c])
             && StepClaim(s, step).r in s.budgets
    ensures var t := MoveClaim(s, step).0; step.c < |t.calls| && Older(s.calls[step.c], t.calls[step.c])
  {
  }

  lemma WaitingAges(s: State, step: Step)
    requires (step.Acquire? || step.Leave?) && Can(s, step) && PcInRange(s.calls[step.c])
    requires StepClaim(s, step).r in s.budgets
    ensures var t := MoveClaim(s, step).0; step.c < |t.calls| && Older(s.calls[step.c], t.calls[step.c])
  {
    var Claim(r, n) := StepClaim(s, step);
    if step.Acquire? {
      AcquireAges(s, step.c, r, n);
    } else {
      LeaveAges(s, step.c, r, n);
    }
  }

  lemma ReleasingAges(s: State, step: Step)
    requires step.Release? && Can(s, step) && StepClaim(s, step).r in s.budgets
    ensures var t := MoveClaim(s, step).0; step.c < |t.calls| && Older(s.calls[step.c], t.calls[step.c])
  {
  }

  lemma KeyStepAges(s: State, step: Step)
    requires MapOk(s.locker) && IsKeyStep(step) && Can(s, step)
    ensures var t := MoveKey(s, step).0;
            OneCall(s, t, step.c) && Older(s.calls[step.c], t.calls[step.c])
            && t.downs == s.downs && t.budgets == s.budgets
  {
    match step
    case Lock(c, e) => LockAges(s, c, e);
    case LeaveKey(c) => LeaveKeyAges(s, c);
    case Unlock(c) =>
  }

  lemma LeaveKeyAges(s: State, c: nat)
    requires c < |s.calls| && s.calls[c].pc.KeyLeaving?
    ensures var t := LeaveKeyMove(s, c).0;
            OneCall(s, t, c) && Older(s.calls[c], t.calls[c]) && t.downs == s.downs && t.budgets == s.budgets
  {
  }

  lemma LockAges(s: State, c: nat, e: nat)
    requires MapOk(s.locker) && Can(s, Lock(c, e))
    ensures var t := LockMove(s, c, e);
            OneCall(s, t, c) && Older(s.calls[c], t.calls[c]) && t.downs == s.downs && t.budgets == s.budgets
  {
  }

  /** Completing a critical section is no step of the calls it wakes. */
  lemma CompletionAgesNone(s: State, rest: Rest)
    requires Core(s) && Applies(s, rest) && (rest.Refresh? || rest.Serve? || rest.Withdraw?)
    ensures NoneAged(s, Complete(s, rest))
  {
    BudgetCompletionWakes(s, rest);
    WakingAgesNone(s, Complete(s, rest), if rest.Withdraw? then Withdrawn else Granted);
  }

  lemma HandOffAgesNone(s: State, e: nat)
    ensures NoneAged(s, HandOff(s, e))
  {
    var t := HandOff(s, e);
    forall i | 0 <= i < |s.calls|
      ensures SameAge(s.calls[i], t.calls[i])
    {
      assert t.calls[i] == s.calls[i]
             || t.calls[i] == s.calls[i].(state := Granted, token := true, book := t.calls[i].book);
    }
  }

  lemma WithdrawAllAgesNone(s: State)
    requires Keyed(s, -1)
    ensures NoneAged(s, WithdrawAllKeys(s))
  {
    forall i: nat | i < |s.calls|
      ensures SameAge(s.calls[i], WithdrawAllKeys(s).calls[i])
    {
      WithdrawAllShape(s, i);
    }
  }

  lemma KeyCompletionAgesNone(s: State, rest: Rest)
    requires rest.Nothing? || rest.HandKey? || (rest.WithdrawKeys? && Keyed(s, -1))
    ensures NoneAged(s, Complete(s, rest))
  {
    match rest
    case HandKey(e) => HandOffAgesNone(s, e);
    case WithdrawKeys => WithdrawAllAgesNone(s);
    case _ =>
  }

  lemma OneCallAges(s: State, t: State, c: nat)
    requires AdmissionMove(s, t, c) && Older(s.calls[c], t.calls[c])
    ensures OneAged(s, t, c)
  {
  }

  lemma ClaimMoveAgesOne(s: State, step: Step)
    requires Core(s) && Reasoned(s) && IsClaimStep(step) && Can(s, step)
    ensures OneAged(s, MoveClaim(s, step).0, step.c)
  {
    ClaimMoveShape(s, step);
    ClaimStepAges(s, step);
    OneCallAges(s, MoveClaim(s, step).0, step.c);
  }

  lemma ClaimCompletionAgesNone(s: State, step: Step)
    requires Core(s) && AllSettled(s) && IsClaimStep(step) && Can(s, step)
    ensures NoneAged(MoveClaim(s, step).0, Do(s, step))
  {
    ClaimStepGrants(s, step);
    WakingAgesNone(MoveClaim(s, step).0, Do(s, step), Granted);
  }

  lemma WakingAgesNone(t: State, u: State, verdict: WaitState)
    requires OnlyWoke(t, u, verdict) && u.budgets.Keys == t.budgets.Keys
    ensures NoneAged(t, u)
  {
    forall i | 0 <= i < |t.calls|
      ensures SameAge(t.calls[i], u.calls[i])
    {
      assert NudgedBy(t.calls[i], u.calls[i], verdict);
    }
  }

  lemma OneThenNone(s: State, t: State, u: State, c: nat)
    requires OneAged(s, t, c) && NoneAged(t, u)
    ensures OneAged(s, u, c)
  {
  }

  /** A step of a call makes it older and no other call. */
  lemma CallStepAges(s: State, step: Step)
    requires Inv(s) && IsCallStep(step) && Can(s, step)
    ensures OneAged(s, Do(s, step), step.c)
  {
    if IsClaimStep(step) {
      ClaimMoveAgesOne(s, step);
      ClaimCompletionAgesNone(s, step);
      OneThenNone(s, MoveClaim(s, step).0, Do(s, step), step.c);
    } else if IsKeyStep(step) {
      KeyMoveAgesOne(s, step);
      KeyCompletionAgesNone(MoveKey(s, step).0, MoveKey(s, step).1);
      OneThenNone(s, MoveKey(s, step).0, Do(s, step), step.c);
    } else {
      GateMoveAgesOne(s, step);
    }
  }

  lemma KeyMoveAgesOne(s: State, step: Step)
    requires MapOk(s.locker) && IsKeyStep(step) && Can(s, step)
    ensures OneAged(s, MoveKey(s, step).0, step.c)
  {
    KeyStepAges(s, step);
  }

  lemma GateMoveAgesOne(s: State, step: Step)
    requires Core(s) && IsGateStep(step) && Can(s, step)
    ensures OneAged(s, Do(s, step), step.c)
  {
    GateStepIsItsMove(s, step);
    GateMoveLeavesOthers(s, step);
    GateCallAges(s, step);
    OneAgedBy(s, MoveGate(s, step), step.c, NextCall(s.calls[step.c], step, s.word));
  }

  lemma GateCallAges(s: State, step: Step)
    requires CallsOk(s) && IsGateStep(step) && Can(s, step)
    ensures Older(s.calls[step.c], NextCall(s.calls[step.c], step, s.word))
  {
    assert CallOk(s.calls[step.c]);
    GateStepAges(s.calls[step.c], step, s.word, s);
  }

  lemma OneAgedBy(s: State, t: State, c: nat, y: Call)
    requires c < |s.calls| && t.calls == s.calls[c := y] && Older(s.calls[c], y)
    requires t.downs == s.downs && t.budgets == s.budgets
    ensures OneAged(s, t, c)
  {
  }

  function DownAge(budgets: nat): Down -> int {
    (d: Down) =>
      match d
      case Fresh => 0
      case Sweeping(todo) => budgets + 2 - |todo|
      case DownMarking => budgets + 3
      case DownClosing => budgets + 4
      case Probing => budgets + 5
      case Selecting => budgets + 6
      case _ => budgets + 7
  }

  /** Steps taken so far, at least. */
  function Potential(s: State): int {
    Total(s.calls, Age) + Total(s.downs, DownAge(|s.budgets|))
  }

  /** Steps any run of these calls can take, at most. */
  function Limit(s: State): int {
    Total(s.calls, MaxAge) + |s.downs| * (|s.budgets| + 7)
  }

  lemma SameAgeCounts(x: Call, y: Call)
    requires SameAge(x, y)
    ensures Age(x) == Age(y) && MaxAge(x) == MaxAge(y)
  {
  }

  lemma OneAgedCounts(s: State, t: State, c: nat)
    requires OneAged(s, t, c)
    ensures Potential(t) > Potential(s) && Limit(t) == Limit(s)
  {
    var mid := s.calls[c := t.calls[c]];
    forall i | 0 <= i < |s.calls|
      ensures Age(mid[i]) == Age(t.calls[i]) && MaxAge(s.calls[i]) == MaxAge(t.calls[i])
    {
      if i != c {
        SameAgeCounts(s.calls[i], t.calls[i]);
      }
    }
    TotalUpdate(s.calls, c, t.calls[c], Age);
    TotalSame(mid, t.calls, Age);
    TotalSame(s.calls, t.calls, MaxAge);
    assert |s.budgets| == |s.budgets.Keys| && |t.budgets| == |t.budgets.Keys|;
  }

  lemma NoneAgedCounts(s: State, t: State)
    requires NoneAged(s, t)
    ensures Potential(t) == Potential(s) && Limit(t) == Limit(s)
  {
    forall i | 0 <= i < |s.calls|
      ensures Age(s.calls[i]) == Age(t.calls[i]) && MaxAge(s.calls[i]) == MaxAge(t.calls[i])
    {
      SameAgeCounts(s.calls[i], t.calls[i]);
    }
    TotalSame(s.calls, t.calls, Age);
    TotalSame(s.calls, t.calls, MaxAge);
    assert |s.budgets| == |s.budgets.Keys| && |t.budgets| == |t.budgets.Keys|;
  }

  lemma DownStepAges(s: State, step: Step)
    requires Inv(s) && !IsCallStep(step) && Can(s, step)
    ensures Potential(Do(s, step)) > Potential(s) && Limit(Do(s, step)) == Limit(s)
  {
    var (t, rest) := MoveDown(s, step);
    DownMoveKeepsOuter(s, step);
    DownMoveShape(s, step);
    DownAges(s, step);
    assert Potential(t) > Potential(s) && Limit(t) == Limit(s);
    DownCompletionAgesNone(t, rest);
    NoneAgedCounts(t, Complete(t, rest));
  }

  lemma DownCompletionAgesNone(t: State, rest: Rest)
    requires Core(t) && Keyed(t, -1) && Applies(t, rest) && (rest.Nothing? || rest.Withdraw? || rest.WithdrawKeys?)
    ensures NoneAged(t, Complete(t, rest))
  {
    if rest.Withdraw? {
      CompletionAgesNone(t, rest);
    } else {
      KeyCompletionAgesNone(t, rest);
    }
  }

  lemma DownAges(s: State, step: Step)
    requires !IsCallStep(step) && Can(s, step) && SweepOk(s)
    ensures var t := MoveDown(s, step).0;
            Total(t.downs, DownAge(|s.budgets|)) > Total(s.downs, DownAge(|s.budgets|)) && |t.downs| == |s.downs|
  {
    var t := MoveDown(s, step).0;
    DownMoves(s, step);
    TotalUpdate(s.downs, step.d, t.downs[step.d], DownAge(|s.budgets|));
  }

  lemma DownMoves(s: State, step: Step)
    requires !IsCallStep(step) && Can(s, step) && SweepOk(s)
    ensures var t := MoveDown(s, step).0;
            |t.downs| == |s.downs| && t.downs == s.downs[step.d := t.downs[step.d]]
            && DownAge(|s.budgets|)(t.downs[step.d]) > DownAge(|s.budgets|)(s.downs[step.d])
  {
    if s.downs[step.d].Sweeping? {
      SweepMoves(s, step);
    }
  }

  lemma SweepMoves(s: State, step: Step)
    requires !IsCallStep(step) && Can(s, step) && SweepOk(s) && s.downs[step.d].Sweeping?
    ensures DownAge(|s.budgets|)(MoveDown(s, step).0.downs[step.d]) > DownAge(|s.budgets|)(s.downs[step.d])
  {
    var todo := s.downs[step.d].todo;
    TodoIsBounded(s, step.d);
    if step.CloseBudget? {
      assert |todo - {step.r}| == |todo| - 1;
    }
  }

  lemma TodoIsBounded(s: State, d: nat)
    requires SweepOk(s) && d < |s.downs| && s.downs[d].Sweeping?
    ensures |s.downs[d].todo| <= |s.budgets|
  {
    SubsetSize(s.downs[d].todo, s.budgets.Keys);
    assert |s.budgets| == |s.budgets.Keys|;
  }

  lemma {:induction false} SubsetSize<T>(a: set<T>, b: set<T>)
    requires a <= b
    ensures |a| <= |b|
    decreases a
  {
    if a != {} {
      var x :| x in a;
      SubsetSize(a - {x}, b - {x});
    }
  }

  lemma PotentialIsBounded(s: State)
    requires Inv(s)
    ensures 0 <= Potential(s) <= Limit(s)
  {
    CallsAgeIsBounded(s);
    DownsAgeIsBounded(s);
  }

  lemma CallsAgeIsBounded(s: State)
    requires CallsOk(s)
    ensures 0 <= Total(s.calls, Age) <= Total(s.calls, MaxAge)
  {
    forall c | 0 <= c < |s.calls|
      ensures 0 <= Age(s.calls[c]) <= MaxAge(s.calls[c])
    {
      assert CallOk(s.calls[c]);
      AgeIsBounded(s.calls[c]);
    }
    TotalMonotone(s.calls, Age, MaxAge);
    TotalNonNegative(s.calls, Age);
  }

  lemma DownsAgeIsBounded(s: State)
    requires SweepOk(s)
    ensures 0 <= Total(s.downs, DownAge(|s.budgets|)) <= |s.downs| * (|s.budgets| + 7)
  {
    var b := |s.budgets|;
    forall d | 0 <= d < |s.downs|
      ensures 0 <= DownAge(b)(s.downs[d]) <= b + 7
    {
      if s.downs[d].Sweeping? {
        TodoIsBounded(s, d);
      }
    }
    TotalAtMost(s.downs, DownAge(b), b + 7);
    TotalNonNegative(s.downs, DownAge(b));
  }

  lemma {:induction false} TotalAtMost<T>(xs: seq<T>, f: T -> int, most: int)
    requires forall i :: 0 <= i < |xs| ==> f(xs[i]) <= most
    ensures Total(xs, f) <= |xs| * most
  {
    if xs != [] {
      TotalAtMost(xs[1..], f, most);
    }
  }

  lemma {:induction false} RunSpendsPotential(ss: seq<State>, steps: seq<Step>, i: nat)
    requires Run(ss, steps) && Inv(ss[0]) && i < |ss|
    ensures Limit(ss[i]) == Limit(ss[0]) && Potential(ss[i]) >= Potential(ss[0]) + i
  {
    if i > 0 {
      var k := i - 1;
      RunSpendsPotential(ss, steps, k);
      RunStepSpends(ss, steps, k);
    }
  }

  lemma RunStepSpends(ss: seq<State>, steps: seq<Step>, k: nat)
    requires Run(ss, steps) && k < |steps| && Inv(ss[0])
    ensures Potential(ss[k + 1]) > Potential(ss[k]) && Limit(ss[k + 1]) == Limit(ss[k])
  {
    RunKeepsInv(ss, steps, k);
    assert RunAt(ss, steps, k);
    StepSpendsPotential(ss[k], steps[k]);
  }

  lemma StepSpendsPotential(s: State, step: Step)
    requires Inv(s) && Can(s, step)
    ensures Potential(Do(s, step)) > Potential(s) && Limit(Do(s, step)) == Limit(s)
  {
    if IsCallStep(step) {
      CallStepAges(s, step);
      OneAgedCounts(s, Do(s, step), step.c);
    } else {
      DownStepAges(s, step);
    }
  }

  /** However the calls interleave, a run is no longer than a bound set by the
      calls, their claims and their attempts: there is no livelock. */
  lemma RunsAreFinite(ss: seq<State>, steps: seq<Step>)
    requires Run(ss, steps) && Inv(ss[0])
    ensures |steps| <= Limit(ss[0])
  {
    RunSpendsPotential(ss, steps, |steps|);
    RunKeepsInv(ss, steps, |steps|);
    PotentialIsBounded(ss[0]);
    PotentialIsBounded(ss[|steps|]);
  }

  /** When no call that has entered can move, every call has returned: with
      bounded runs, every admitted call whose handler returns completes. */
  lemma StalledMeansFinished(s: State)
    requires Inv(s)
    requires forall c: nat :: c < |s.calls| && CanMove(s, c) ==> s.calls[c].pc.Idle?
    ensures forall c :: 0 <= c < |s.calls| ==> s.calls[c].pc.Idle? || s.calls[c].pc.Returned?
  {
    forall c: nat | c < |s.calls|
      ensures s.calls[c].pc.Idle? || s.calls[c].pc.Returned?
    {
      if !s.calls[c].pc.Idle? && !s.calls[c].pc.Returned? {
        OnlyWaitersBlock(s, c);
        NoDeadlock(s, c);
      }
    }
  }
}
