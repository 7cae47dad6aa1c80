/** What the invariant means for callers of Do, Shutdown and Stats. */
module Guarantees {
  import opened Totals
  import opened Claims
  import opened Protocol
  import opened Invariant
  import opened KeyInvariant
  import opened GateInvariant
  import opened Safety
  import opened Books
  import B = Budgets

  // ---------- nothing goes backwards ----------

  predicate TallyGrows(a: Tally, b: Tally) {
    a.admitted <= b.admitted && a.rejected <= b.rejected && a.started <= b.started
    && a.finished <= b.finished && a.retried <= b.retried
  }

  /** Counters, the done channel and a Shutdown's success only ever advance. */
  predicate Onward(s: State, t: State) {
    && TallyGrows(s.tally, t.tally)
    && s.done <= t.done
    && |s.calls| == |t.calls| && |s.downs| == |t.downs|
    && (Stopped(s.word) ==> Stopped(t.word))
    && (forall d :: 0 <= d < |s.downs| && s.downs[d] == ReturnedNil ==> t.downs[d] == ReturnedNil)
    && (forall d :: 0 <= d < |s.downs| && t.downs[d] == ReturnedNil ==> s.downs[d] == ReturnedNil || t.done > 0)
  }

  /** Completing a critical section leaves all of that alone. */
  predicate SameFront(s: State, t: State) {
    |s.calls| == |t.calls| && s.word == t.word && s.done == t.done && s.tally == t.tally && s.downs == t.downs
  }

  lemma CompletionIsBehind(s: State, rest: Rest)
    requires Core(s) && Applies(s, rest)
    ensures SameFront(s, Complete(s, rest))
  {
    if rest.Refresh? || rest.Serve? || rest.Withdraw? {
      BudgetCompletionWakes(s, rest);
    }
  }

  lemma ClaimStepIsBehind(s: State, step: Step)
    requires Core(s) && AllSettled(s) && Reasoned(s) && IsClaimStep(step) && Can(s, step)
    ensures SameFront(s, Do(s, step))
  {
    ClaimMoveShape(s, step);
    ClaimStepGrants(s, step);
  }

  lemma KeyStepIsBehind(s: State, step: Step)
    requires IsKeyStep(step) && Can(s, step)
    ensures SameFront(s, Do(s, step))
  {
    var (t, rest) := MoveKey(s, step);
    assert SameFront(s, t);
    assert rest == Nothing || rest.HandKey?;
  }

  lemma GateStepIsOnward(s: State, step: Step)
    requires Gated(s) && IsGateStep(step) && Can(s, step)
    ensures Onward(s, MoveGate(s, step))
  {
    if step.TurnAway? || step.Depart? {
      NonNegative(s);
      TotalAtLeast(s.calls, step.c, GateOne);
    }
    WordNeverUnstops(s.word, step);
  }

  lemma DownMoveIsOnward(s: State, step: Step)
    requires Gated(s) && !IsCallStep(step) && Can(s, step)
    ensures Onward(s, MoveDown(s, step).0)
  {
    OrSetsOneBit(s.word);
    ExactlyStopping(s.word);
  }

  lemma StepIsOnward(s: State, step: Step)
    requires Inv(s) && Can(s, step)
    ensures Onward(s, Do(s, step))
  {
    if !IsCallStep(step) {
      DownMoveIsOnward(s, step);
      DownMoveKeepsOuter(s, step);
      CompletionIsBehind(MoveDown(s, step).0, MoveDown(s, step).1);
    } else if IsClaimStep(step) {
      ClaimStepIsBehind(s, step);
    } else if IsKeyStep(step) {
      KeyStepIsBehind(s, step);
    } else {
      GateStepIsOnward(s, step);
    }
  }

  lemma RunStepIsOnward(ss: seq<State>, steps: seq<Step>, k: nat)
    requires Run(ss, steps) && Inv(ss[0]) && k < |steps|
    ensures Onward(ss[k], ss[k + 1])
  {
    RunKeepsInv(ss, steps, k);
    assert RunAt(ss, steps, k);
    StepIsOnward(ss[k], steps[k]);
  }

  lemma {:induction false} OnwardAlong(ss: seq<State>, i: nat, j: nat)
    requires forall k :: 0 <= k < |ss| - 1 ==> Onward(ss[k], ss[k + 1])
    requires i <= j < |ss|
    ensures Onward(ss[i], ss[j])
  {
    if i < j {
      OnwardAlong(ss, i, j - 1);
      OnwardChains(ss[i], ss[j - 1], ss[j - 1 + 1]);
    }
  }

  lemma RunIsOnward(ss: seq<State>, steps: seq<Step>, i: nat, j: nat)
    requires Run(ss, steps) && Inv(ss[0]) && i <= j < |ss|
    ensures Onward(ss[i], ss[j])
  {
    forall k: nat | k < |ss| - 1
      ensures Onward(ss[k], ss[k + 1])
    {
      RunStepIsOnward(ss, steps, k);
    }
    OnwardAlong(ss, i, j);
  }

  lemma OnwardChains(s: State, t: State, u: State)
    requires Onward(s, t) && Onward(t, u)
    ensures Onward(s, u)
  {
  }

  // ---------- keys ----------

  /** At most one call holds a key. */
  lemma OneHolderPerKey(s: State, a: nat, b: nat)
    requires Inv(s) && a < |s.calls| && b < |s.calls|
    requires OwnsKey(s.calls[a]) && OwnsKey(s.calls[b]) && s.calls[a].key == s.calls[b].key
    ensures a == b
  {
    assert HolderOk(s, a, -1) && HolderOk(s, b, -1);
    assert CellOk(s.locker, s.calls[a].entry) && CellOk(s.locker, s.calls[b].entry);
  }

  /** The map has an entry for a key exactly while a call holds the key. */
  lemma EntryExactlyWhileHeld(s: State, k: string)
    requires Inv(s)
    ensures k in s.locker.m <==> exists c :: 0 <= c < |s.calls| && OwnsKey(s.calls[c]) && s.calls[c].key == k
  {
    if k in s.locker.m {
      assert OwnerOk(s, s.locker.m[k]);
    }
    if c :| 0 <= c < |s.calls| && OwnsKey(s.calls[c]) && s.calls[c].key == k {
      assert HolderOk(s, c, -1);
      assert CellOk(s.locker, s.calls[c].entry);
    }
  }

  /** Whoever holds or waits for a key points at that key's own live entry,
      never at one the pool has taken back or reissued. */
  lemma EntriesAreNotReused(s: State, c: nat)
    requires Inv(s) && c < |s.calls| && (OwnsKey(s.calls[c]) || AwaitsKey(s.calls[c]))
    ensures EntryOk(s, s.calls[c])
    ensures s.calls[c].key in s.locker.m && s.locker.m[s.calls[c].key] == s.calls[c].entry
  {
    assert OwnsKey(s.calls[c]) ==> HolderOk(s, c, -1);
    assert AwaitsKey(s.calls[c]) ==> QueuerOk(s, c);
    assert CellOk(s.locker, s.calls[c].entry);
  }

  // ---------- conservation ----------

  /** Nobody holds or waits for anything. */
  predicate Empty(s: State) {
    && (forall r :: r in s.budgets ==> s.budgets[r].cur == 0 && s.budgets[r].queue == [])
    && s.locker.m.Keys == {}
    && s.tally.finished == s.tally.admitted
  }

  lemma QueuedIsInFlight(s: State, r: string)
    requires Core(s) && r in s.budgets && s.budgets[r].queue != []
    ensures exists c :: 0 <= c < |s.calls| && InFlight(s.calls[c].pc)
  {
    assert QueueOk(s, r);
    assert TicketOk(s, r, s.budgets[r].queue[0]);
  }

  lemma HolderIsInFlight(s: State, k: string)
    requires Keyed(s, -1) && k in s.locker.m
    ensures exists c :: 0 <= c < |s.calls| && InFlight(s.calls[c].pc)
  {
    assert OwnerOk(s, s.locker.m[k]);
  }

  lemma IdleBudgetsAreWhole(s: State, r: string)
    requires Core(s) && NothingInFlight(s) && r in s.budgets
    ensures s.budgets[r].cur == 0 && s.budgets[r].queue == []
  {
    TotalZero(s.calls, UnitsOf(r));
    if s.budgets[r].queue != [] {
      QueuedIsInFlight(s, r);
    }
  }

  lemma IdleKeysAreFree(s: State)
    requires Keyed(s, -1) && NothingInFlight(s)
    ensures s.locker.m.Keys == {}
  {
    if k :| k in s.locker.m.Keys {
      HolderIsInFlight(s, k);
    }
  }

  lemma IdleCountersAgree(s: State)
    requires Counted(s) && NothingInFlight(s)
    ensures s.tally.finished == s.tally.admitted
  {
    TotalMonotone(s.calls, LeftOne, CountedOne);
    TotalMonotone(s.calls, CountedOne, LeftOne);
  }

  /** Every unit and every key comes back: with no call in flight all budgets
      are whole, no key is held and every admitted call is counted finished. */
  lemma IdleMeansEmpty(s: State)
    requires Inv(s) && NothingInFlight(s)
    ensures Empty(s)
  {
    forall r | r in s.budgets
      ensures s.budgets[r].cur == 0 && s.budgets[r].queue == []
    {
      IdleBudgetsAreWhole(s, r);
    }
    IdleKeysAreFree(s);
    IdleCountersAgree(s);
  }

  /** In every reachable state units in use are those calls hold or have been
      granted, within the capacity, so no sum in the code overflows. */
  lemma UnitsAreConserved(ss: seq<State>, steps: seq<Step>, i: nat, r: string)
    requires Run(ss, steps) && Initial(ss[0]) && i < |ss| && r in ss[i].budgets
    ensures var b := ss[i].budgets[r];
            b.cur == Total(ss[i].calls, Outstanding(r)) && 0 <= b.cur <= b.size <= B.MAX_INT64
            && forall c :: 0 <= c < |ss[i].calls| ==> 0 <= Outstanding(r)(ss[i].calls[c]) <= b.cur
  {
    ReachedIsSound(ss, steps, i);
    var s := ss[i];
    assert B.Settled(s.budgets[r]);
    forall c | 0 <= c < |s.calls|
      ensures 0 <= UnitsOf(r)(s.calls[c]) == Outstanding(r)(s.calls[c])
    {
      assert ValidOperation(s.calls[c], s.budgets) && Booked(s.calls[c]);
      UnitsBounds(s.calls[c].claims, Held(s.calls[c]), r);
      OutstandingIsHeld(s.calls[c], r);
    }
    SameTotal(s.calls, UnitsOf(r), Outstanding(r));
    forall c: nat | c < |s.calls|
      ensures UnitsOf(r)(s.calls[c]) <= s.budgets[r].cur
    {
      TotalAtLeast(s.calls, c, UnitsOf(r));
    }
  }

  lemma SameTotal<T>(xs: seq<T>, f: T -> int, g: T -> int)
    requires forall i :: 0 <= i < |xs| ==> f(xs[i]) == g(xs[i])
    ensures Total(xs, f) == Total(xs, g)
  {
    TotalMonotone(xs, f, g);
    TotalMonotone(xs, g, f);
  }

  /** done is closed at most once, and only with nothing in flight. */
  lemma DoneClosesOnce(s: State)
    requires Inv(s)
    ensures 0 <= s.done <= 1
    ensures s.done == 1 ==> Stopped(s.word) && NothingInFlight(s)
    ensures forall c :: 0 <= c < |s.calls| && s.calls[c].pc.Closing? ==> s.done == 0
  {
    NonNegative(s);
    forall c | 0 <= c < |s.calls| && s.calls[c].pc.Closing?
      ensures s.done == 0
    {
      TotalAtLeast(s.calls, c, ClosingOne);
    }
  }

  /** The drain signal is never lost: once stopping, with every call out of the
      gate and every Shutdown past its marking, done is closed. */
  lemma DrainIsNeverLost(s: State)
    requires Inv(s) && Stopped(s.word)
    requires forall c :: 0 <= c < |s.calls| ==>
               s.calls[c].pc.Idle? || s.calls[c].pc.Tallying? || s.calls[c].pc.Returned?
    requires forall d :: 0 <= d < |s.downs| ==>
               !s.downs[d].Sweeping? && !s.downs[d].DownMarking? && !s.downs[d].DownClosing?
    ensures s.done == 1
  {
    TotalZero(s.calls, GateOne);
    TotalZero(s.calls, ClosingOne);
    TotalZero(s.calls, MarkingOne);
    TotalZero(s.downs, DownClosingOne);
    TotalZero(s.downs, DownMarkOne);
    ExactlyStopping(s.word);
  }

  /** What Shutdown returning nil promises, then and forever after. */
  lemma NilShutdownIsForever(ss: seq<State>, steps: seq<Step>, i: nat, j: nat, d: nat)
    requires Run(ss, steps) && Initial(ss[0]) && i <= j < |ss|
    requires d < |ss[i].downs| && ss[i].downs[d] == ReturnedNil
    ensures Empty(ss[j]) && NothingInFlight(ss[j]) && ss[j].done == 1
  {
    InitialHolds(ss[0]);
    RunIsOnward(ss, steps, 0, i);
    RunIsOnward(ss, steps, i, j);
    RunKeepsInv(ss, steps, j);
    DoneClosesOnce(ss[j]);
    IdleMeansEmpty(ss[j]);
  }

  /** After any Shutdown has begun no call is ever admitted again. */
  lemma StoppingAdmitsNobody(s: State, c: nat)
    requires Inv(s) && Stopped(s.word) && Can(s, Enter(c))
    ensures Do(s, Enter(c)).calls[c].pc == Turned
  {
    UpAddsOne(s.word);
  }

  // ---------- counters ----------

  lemma CountersAreOrdered(s: State)
    requires Inv(s)
    ensures s.tally.started <= s.tally.admitted && s.tally.finished <= s.tally.admitted
  {
    forall c | 0 <= c < |s.calls|
      ensures RanOne(s.calls[c]) <= CountedOne(s.calls[c])
    {
      assert CallOk(s.calls[c]) && ReasonOk(s.calls[c], Stopped(s.word));
      RanIsCounted(s.calls[c], Stopped(s.word));
    }
    TotalMonotone(s.calls, RanOne, CountedOne);
    TotalMonotone(s.calls, LeftOne, CountedOne);
  }

  lemma RanIsCounted(c: Call, stopping: bool)
    requires CallOk(c) && ReasonOk(c, stopping)
    ensures RanOne(c) <= CountedOne(c)
  {
  }

  /** A Stats snapshot loads finished at i, started at j and admitted at k while
      calls run on; it never shows more started or finished than admitted. */
  lemma SnapshotsAreOrdered(ss: seq<State>, steps: seq<Step>, i: nat, j: nat, k: nat)
    requires Run(ss, steps) && Initial(ss[0]) && i <= j <= k < |ss|
    ensures ss[i].tally.finished <= ss[k].tally.admitted
    ensures ss[j].tally.started <= ss[k].tally.admitted
  {
    InitialHolds(ss[0]);
    RunIsOnward(ss, steps, i, k);
    RunIsOnward(ss, steps, j, k);
    RunKeepsInv(ss, steps, i);
    RunKeepsInv(ss, steps, j);
    CountersAreOrdered(ss[i]);
    CountersAreOrdered(ss[j]);
  }

  // ---------- admission and errors ----------

  /** Out of admission: about to leave, gone, or never let in. */
  predicate LeftAdmission(pc: Pc) {
    pc.Refusing? || pc.Exiting? || pc.Departing? || !InFlight(pc)
  }

  /** In every reachable state, by the charges made and the locker's own map:
      a call waiting for its key has taken nothing; one waiting for claim i
      has its key and has taken exactly claims 0..i-1; one whose handler runs
      has everything; one that failed or finished has paid everything back. */
  lemma AdmissionIsAllOrNothing(ss: seq<State>, steps: seq<Step>, i: nat, c: nat)
    requires Run(ss, steps) && Initial(ss[0]) && i < |ss| && c < |ss[i].calls|
    ensures var s := ss[i]; var x := s.calls[c]; var b := x.book;
            && (x.pc.KeyParked? && x.state == Waiting ==> b == BLANK && !HoldsKey(s, c))
            && (x.pc.Parked? && x.state == Waiting ==>
                  b.took <= x.claims && |b.took| == x.pc.i && b.gave == [] && (x.key != "" ==> HoldsKey(s, c)))
            && (x.pc.Handling? ==> b.took == x.claims && b.gave == [] && (x.key != "" ==> HoldsKey(s, c)))
            && (LeftAdmission(x.pc) ==> b.gave == Back(b.took, 0) && b.unlocks == b.locks && !HoldsKey(s, c))
  {
    ReachedIsSound(ss, steps, i);
    OwnerIsNamed(ss[i], c);
    BooksByPoint(ss[i].calls[c]);
  }

  lemma BooksByPoint(x: Call)
    requires Booked(x)
    ensures var b := x.book;
            && (x.pc.KeyParked? && x.state == Waiting ==> b == BLANK && !OwnsKey(x))
            && (x.pc.Parked? && x.state == Waiting ==>
                  b.took <= x.claims && |b.took| == x.pc.i && b.gave == [] && (x.key != "" ==> OwnsKey(x)))
            && (x.pc.Handling? ==> b.took == x.claims && b.gave == [] && (x.key != "" ==> OwnsKey(x)))
            && (LeftAdmission(x.pc) ==> b.gave == Back(b.took, 0) && b.unlocks == b.locks && !OwnsKey(x))
  {
  }

  /** Each of the first claims taken once, in order, and given back once, in
      reverse; the key given up as often as it was handed over, at most once;
      if the handler ran, everything had been taken. */
  ghost predicate Squared(x: Call) {
    var took, gave := x.book.took, x.book.gave;
    && took <= x.claims
    && |gave| == |took| && (forall k :: 0 <= k < |took| ==> gave[k] == took[|took| - 1 - k])
    && x.book.unlocks == x.book.locks <= 1
    && (x.tries > 0 ==> took == x.claims && x.book.locks == if x.key != "" then 1 else 0)
  }

  lemma ReturnedIsSquared(x: Call)
    requires Booked(x) && x.pc.Returned?
    ensures Squared(x)
  {
    var took := x.book.took;
    assert x.book.gave == Back(took, 0);
    forall k | 0 <= k < |took|
      ensures |x.book.gave| == |took| && x.book.gave[k] == took[|took| - 1 - k]
    {
      BackAt(took, 0, k);
    }
    if took != [] {
      BackAt(took, 0, 0);
    }
  }

  /** A call that has returned, whatever it met, a panic included, is squared. */
  lemma EverythingComesBackOnce(ss: seq<State>, steps: seq<Step>, i: nat, c: nat)
    requires Run(ss, steps) && Initial(ss[0]) && i < |ss| && c < |ss[i].calls| && ss[i].calls[c].pc.Returned?
    ensures var x := ss[i].calls[c];
            Squared(x) && (x.result == Panicked || x.result == Succeeded || x.result == Failed ==> x.tries > 0)
  {
    ReachedIsSound(ss, steps, i);
    ReturnedIsSquared(ss[i].calls[c]);
    assert ReasonOk(ss[i].calls[c], Stopped(ss[i].word));
  }

  /** A Wait call that never ran its handler was stopped by its own context or
      by Shutdown, never by load; a handler runs at most `attempts` times. */
  lemma WaitFailsOnlyForCause(s: State, c: nat)
    requires Inv(s) && c < |s.calls| && s.calls[c].pc.Returned?
    ensures var x := s.calls[c];
            && x.tries <= x.attempts
            && x.result != Pending
            && (x.tries == 0 && x.mode == Wait ==>
                  (x.result == ContextEnded && x.ended) || (x.result == Stopping && Stopped(s.word)))
            && (x.result == Overloaded ==> x.mode == Reject && x.tries == 0)
            && (x.result == Succeeded ==> x.tries > 0)
  {
    assert CallOk(s.calls[c]) && ReasonOk(s.calls[c], Stopped(s.word));
  }
}
