/** The gate word, the drain signal, the counters and the reasons calls fail. */
module GateInvariant {
  import opened Totals
  import opened Protocol
  import opened Invariant
  import B = Budgets

  // ---------- the word ----------

  predicate IsWord(w: int) {
    0 <= w < WORD
  }

  lemma UpAddsOne(w: int)
    requires IsWord(w) && InFlightBits(w) + 1 < DRAINED
    ensures IsWord(Up(w)) && InFlightBits(Up(w)) == InFlightBits(w) + 1
    ensures Stopped(Up(w)) == Stopped(w) && HasDrained(Up(w)) == HasDrained(w)
  {
  }

  lemma DownTakesOne(w: int)
    requires IsWord(w) && InFlightBits(w) > 0
    ensures IsWord(Down1(w)) && InFlightBits(Down1(w)) == InFlightBits(w) - 1
    ensures Stopped(Down1(w)) == Stopped(w) && HasDrained(Down1(w)) == HasDrained(w)
  {
  }

  lemma OrSetsOneBit(w: int)
    requires IsWord(w)
    ensures IsWord(OrStopping(w)) && Stopped(OrStopping(w))
    ensures InFlightBits(OrStopping(w)) == InFlightBits(w) && HasDrained(OrStopping(w)) == HasDrained(w)
  {
  }

  lemma ExactlyStopping(w: int)
    requires IsWord(w)
    ensures w == STOPPING <==> Stopped(w) && !HasDrained(w) && InFlightBits(w) == 0
    ensures Stopped(STOPPING + DRAINED) && HasDrained(STOPPING + DRAINED) && InFlightBits(STOPPING + DRAINED) == 0
  {
  }

  /** One more call is counted, and the two flags stay as they are, exactly
      while fewer than 2^62 - 1 calls are in the gate; the next would set the
      drained bit. */
  lemma GateCountsBelowItsBound(w: int)
    requires IsWord(w) && !HasDrained(w)
    ensures InFlightBits(Up(w)) == InFlightBits(w) + 1 && HasDrained(Up(w)) == HasDrained(w)
            && Stopped(Up(w)) == Stopped(w)
            <==> InFlightBits(w) + 1 < DRAINED
  {
    if InFlightBits(w) + 1 < DRAINED {
      UpAddsOne(w);
    }
  }

  // ---------- indicators ----------

  function GateOne(c: Call): int { if InGate(c.pc) then 1 else 0 }
  function ClosingOne(c: Call): int { if c.pc.Closing? then 1 else 0 }
  function MarkingOne(c: Call): int { if c.pc.Marking? then 1 else 0 }
  function DownClosingOne(d: Down): int { if d.DownClosing? then 1 else 0 }
  function DownMarkOne(d: Down): int { if d.Sweeping? || d.DownMarking? then 1 else 0 }

  /** Counted in Admitted. */
  function CountedOne(c: Call): int {
    if InFlight(c.pc) then (if c.pc.Entered? then 0 else 1)
    else if c.pc == Marking(true) || c.pc == Closing(true) || c.pc == Returned(true) then 1
    else 0
  }

  /** Counted in Finished. */
  function LeftOne(c: Call): int {
    if c.pc.Departing? || c.pc == Marking(true) || c.pc == Closing(true) || c.pc == Returned(true) then 1 else 0
  }

  function RanOne(c: Call): int { if c.tries > 0 then 1 else 0 }
  function RetriesOf(c: Call): int { if c.tries > 0 then c.tries - 1 else 0 }

  function RefusalsOf(c: Call): int {
    (if c.pc == Returned(false) then 1 else 0) + if c.result == Overloaded then 1 else 0
  }

  // ---------- invariants ----------

  /** The gate protocol. */
  predicate Gated(s: State) {
    && IsWord(s.word)
    && InFlightBits(s.word) == Total(s.calls, GateOne)
    && (HasDrained(s.word) ==> Stopped(s.word) && NothingInFlight(s))
    && Total(s.calls, ClosingOne) + Total(s.downs, DownClosingOne) + s.done == (if HasDrained(s.word) then 1 else 0)
    && s.done >= 0
    && (s.word == STOPPING ==> Total(s.calls, MarkingOne) + Total(s.downs, DownMarkOne) > 0)
  }

  predicate NothingInFlight(s: State) {
    forall c :: 0 <= c < |s.calls| ==> !InFlight(s.calls[c].pc)
  }

  /** Every counter says exactly what its documentation promises. */
  predicate Counted(s: State) {
    && s.tally.admitted == Total(s.calls, CountedOne)
    && s.tally.finished == Total(s.calls, LeftOne)
    && s.tally.started == Total(s.calls, RanOne)
    && s.tally.retried == Total(s.calls, RetriesOf)
    && s.tally.rejected == Total(s.calls, RefusalsOf)
  }

  predicate Failing(c: Call) {
    c.pc.KeyLeaving? || c.pc.Leaving? || (c.pc.Releasing? && c.pc.failed) || c.pc.Refusing?
  }

  predicate AtWait(pc: Pc) {
    AtKey(pc) || pc.Parked? || pc.Woken? || pc.Leaving?
  }

  predicate Decided(pc: Pc) {
    (pc.Releasing? && !pc.failed) || pc.Exiting? || pc.Departing? || pc == Marking(true) || pc == Closing(true)
    || pc.Returned?
  }

  /** A call's result names its true cause. */
  predicate ReasonOk(c: Call, stopping: bool) {
    && (AtWait(c.pc) && c.state == Withdrawn ==> stopping)
    && (Failing(c) && c.mode == Wait ==> c.ended || stopping)
    && (c.result == Stopping ==> stopping)
    && (c.result == ContextEnded ==> c.ended)
    && (c.result == Overloaded ==> c.mode == Reject && c.tries == 0)
    && (c.result == Succeeded || c.result == Failed || c.result == Panicked ==> c.tries > 0)
    && (c.result != Pending <==> Decided(c.pc))
    && (c.pc.Turned? || c.pc.Tallying? || c.pc == Marking(false) || c.pc == Closing(false) ==> stopping)
  }

  predicate Reasoned(s: State) {
    && (forall c :: 0 <= c < |s.calls| ==> ReasonOk(s.calls[c], Stopped(s.word)))
    && (forall r :: r in s.budgets && s.budgets[r].closed ==> Stopped(s.word))
    && (s.locker.closed ==> Stopped(s.word))
    && (forall d :: 0 <= d < |s.downs| && !s.downs[d].Fresh? ==> Stopped(s.word))
  }

  // ---------- what completing a critical section cannot change ----------

  predicate SameFace(x: Call, y: Call) {
    x.pc == y.pc && x.tries == y.tries && x.result == y.result && x.mode == y.mode && x.ended == y.ended
  }

  predicate SameFaces(s: State, t: State) {
    && |s.calls| == |t.calls| && (forall i :: 0 <= i < |s.calls| ==> SameFace(s.calls[i], t.calls[i]))
    && s.word == t.word && s.done == t.done && s.tally == t.tally && s.downs == t.downs
  }

  lemma FacesDecide(s: State, t: State)
    requires SameFaces(s, t) && Gated(s) && Counted(s)
    ensures Gated(t) && Counted(t)
  {
    forall i | 0 <= i < |s.calls|
      ensures InFlight(t.calls[i].pc) == InFlight(s.calls[i].pc)
    {
      assert SameFace(s.calls[i], t.calls[i]);
    }
    TotalSame(s.calls, t.calls, GateOne);
    TotalSame(s.calls, t.calls, ClosingOne);
    TotalSame(s.calls, t.calls, MarkingOne);
    TotalSame(s.calls, t.calls, CountedOne);
    TotalSame(s.calls, t.calls, LeftOne);
    TotalSame(s.calls, t.calls, RanOne);
    TotalSame(s.calls, t.calls, RetriesOf);
    TotalSame(s.calls, t.calls, RefusalsOf);
  }

  // ---------- one call moves ----------

  predicate OneCall(s: State, t: State, c: nat) {
    c < |s.calls| && c < |t.calls| && t.calls == s.calls[c := t.calls[c]]
  }

  lemma OneCallInGateTotals(s: State, t: State, c: nat)
    requires OneCall(s, t, c)
    ensures Total(t.calls, GateOne) == Total(s.calls, GateOne) - GateOne(s.calls[c]) + GateOne(t.calls[c])
    ensures Total(t.calls, ClosingOne) == Total(s.calls, ClosingOne) - ClosingOne(s.calls[c]) + ClosingOne(t.calls[c])
    ensures Total(t.calls, MarkingOne) == Total(s.calls, MarkingOne) - MarkingOne(s.calls[c]) + MarkingOne(t.calls[c])
  {
    TotalUpdate(s.calls, c, t.calls[c], GateOne);
    TotalUpdate(s.calls, c, t.calls[c], ClosingOne);
    TotalUpdate(s.calls, c, t.calls[c], MarkingOne);
  }

  lemma OneCallInCounters(s: State, t: State, c: nat)
    requires OneCall(s, t, c)
    ensures Total(t.calls, CountedOne) == Total(s.calls, CountedOne) - CountedOne(s.calls[c]) + CountedOne(t.calls[c])
    ensures Total(t.calls, LeftOne) == Total(s.calls, LeftOne) - LeftOne(s.calls[c]) + LeftOne(t.calls[c])
    ensures Total(t.calls, RanOne) == Total(s.calls, RanOne) - RanOne(s.calls[c]) + RanOne(t.calls[c])
    ensures Total(t.calls, RetriesOf) == Total(s.calls, RetriesOf) - RetriesOf(s.calls[c]) + RetriesOf(t.calls[c])
    ensures Total(t.calls, RefusalsOf) == Total(s.calls, RefusalsOf) - RefusalsOf(s.calls[c]) + RefusalsOf(t.calls[c])
  {
    TotalUpdate(s.calls, c, t.calls[c], CountedOne);
    TotalUpdate(s.calls, c, t.calls[c], LeftOne);
    TotalUpdate(s.calls, c, t.calls[c], RanOne);
    TotalUpdate(s.calls, c, t.calls[c], RetriesOf);
    TotalUpdate(s.calls, c, t.calls[c], RefusalsOf);
  }

  /** x and y weigh the same in every sum and are in flight alike. */
  predicate SameWeight(x: Call, y: Call) {
    && InFlight(x.pc) == InFlight(y.pc) && GateOne(x) == GateOne(y)
    && ClosingOne(x) == ClosingOne(y) && MarkingOne(x) == MarkingOne(y)
    && CountedOne(x) == CountedOne(y) && LeftOne(x) == LeftOne(y)
    && RanOne(x) == RanOne(y) && RetriesOf(x) == RetriesOf(y) && RefusalsOf(x) == RefusalsOf(y)
  }

  lemma WeightlessMove(s: State, t: State, c: nat)
    requires Gated(s) && Counted(s) && OneCall(s, t, c) && SameWeight(s.calls[c], t.calls[c])
    requires s.word == t.word && s.done == t.done && s.tally == t.tally && s.downs == t.downs
    ensures Gated(t) && Counted(t)
  {
    OneCallInGateTotals(s, t, c);
    OneCallInCounters(s, t, c);
  }

  lemma GateMoveKeepsCounted(s: State, step: Step)
    requires Counted(s) && IsGateStep(step) && Can(s, step) && CallOk(s.calls[step.c])
    requires ReasonOk(s.calls[step.c], Stopped(s.word))
    ensures Counted(MoveGate(s, step))
  {
    var t := MoveGate(s, step);
    OneCallInCounters(s, t, step.c);
    GateMoveWeighs(s.calls[step.c], step, s.word, s.tally, s);
  }

  /** The counters move with the call they count. */
  predicate Balanced(x: Call, y: Call, a: Tally, b: Tally) {
    && b.admitted - a.admitted == CountedOne(y) - CountedOne(x)
    && b.finished - a.finished == LeftOne(y) - LeftOne(x)
    && b.started - a.started == RanOne(y) - RanOne(x)
    && b.retried - a.retried == RetriesOf(y) - RetriesOf(x)
    && b.rejected - a.rejected == RefusalsOf(y) - RefusalsOf(x)
  }

  lemma ParkMoveWeighs(x: Call, step: Step, w: int, a: Tally, s: State)
    requires IsGateStep(step) && CallCan(s, x, step) && CallOk(x) && ReasonOk(x, Stopped(w)) && IsParkStep(step)
    ensures Balanced(x, NextCall(x, step, w), a, NextTally(a, step, x))
  {
    if IsKeyPark(step) {
      KeyParkWeighs(x, step, w, a, s);
    } else if IsClaimPark(step) {
      ClaimParkWeighs(x, step, w, a, s);
    } else {
      AttemptWeighs(x, step, w, a, s);
    }
  }

  lemma KeyParkWeighs(x: Call, step: Step, w: int, a: Tally, s: State)
    requires IsGateStep(step) && CallCan(s, x, step) && CallOk(x) && ReasonOk(x, Stopped(w)) && IsKeyPark(step)
    ensures Balanced(x, NextCall(x, step, w), a, NextTally(a, step, x))
  {
  }

  lemma ClaimParkWeighs(x: Call, step: Step, w: int, a: Tally, s: State)
    requires IsGateStep(step) && CallCan(s, x, step) && CallOk(x) && ReasonOk(x, Stopped(w)) && IsClaimPark(step)
    ensures Balanced(x, NextCall(x, step, w), a, NextTally(a, step, x))
  {
  }

  lemma AttemptWeighs(x: Call, step: Step, w: int, a: Tally, s: State)
    requires IsGateStep(step) && CallCan(s, x, step) && CallOk(x) && ReasonOk(x, Stopped(w)) && IsAttemptStep(step)
    ensures Balanced(x, NextCall(x, step, w), a, NextTally(a, step, x))
  {
  }

  lemma GateMoveWeighs(x: Call, step: Step, w: int, a: Tally, s: State)
    requires IsGateStep(step) && CallCan(s, x, step) && CallOk(x) && ReasonOk(x, Stopped(w))
    ensures Balanced(x, NextCall(x, step, w), a, NextTally(a, step, x))
  {
    if IsParkStep(step) {
      ParkMoveWeighs(x, step, w, a, s);
    }
  }

  lemma NonNegative(s: State)
    ensures Total(s.calls, GateOne) >= 0 && Total(s.calls, ClosingOne) >= 0 && Total(s.calls, MarkingOne) >= 0
    ensures Total(s.downs, DownClosingOne) >= 0 && Total(s.downs, DownMarkOne) >= 0
    ensures Total(s.calls, GateOne) == 0 ==> forall c :: 0 <= c < |s.calls| ==> !InGate(s.calls[c].pc)
  {
    TotalNonNegative(s.calls, GateOne);
    TotalNonNegative(s.calls, ClosingOne);
    TotalNonNegative(s.calls, MarkingOne);
    TotalNonNegative(s.downs, DownClosingOne);
    TotalNonNegative(s.downs, DownMarkOne);
    forall c | 0 <= c < |s.calls|
      ensures GateOne(s.calls[c]) <= Total(s.calls, GateOne)
    {
      TotalAtLeast(s.calls, c, GateOne);
    }
  }

  lemma EnterKeepsGated(s: State, step: Step)
    requires Gated(s) && step.Enter? && Can(s, step)
    ensures Gated(MoveGate(s, step))
  {
    var t := MoveGate(s, step);
    OneCallInGateTotals(s, t, step.c);
    NonNegative(s);
    UpAddsOne(s.word);
    ExactlyStopping(t.word);
  }

  /** A call leaves the gate; the last one out of a stopping runtime is
      committed to marking it drained. */
  lemma LeaveGateKeepsGated(s: State, step: Step)
    requires Gated(s) && (step.TurnAway? || step.Depart?) && Can(s, step)
    ensures Gated(MoveGate(s, step))
  {
    var t := MoveGate(s, step);
    OneCallInGateTotals(s, t, step.c);
    NonNegative(s);
    TotalAtLeast(s.calls, step.c, GateOne);
    DownTakesOne(s.word);
  }

  /** Marking succeeds only with nothing in flight, and only once. */
  lemma MarkKeepsGated(s: State, step: Step)
    requires Gated(s) && (step.Mark? || step.CloseDone?) && Can(s, step)
    ensures Gated(MoveGate(s, step))
  {
    var t := MoveGate(s, step);
    OneCallInGateTotals(s, t, step.c);
    NonNegative(s);
    ExactlyStopping(s.word);
  }

  lemma GateMoveKeepsGated(s: State, step: Step)
    requires Gated(s) && IsGateStep(step) && Can(s, step)
    ensures Gated(MoveGate(s, step))
  {
    if step.Enter? {
      EnterKeepsGated(s, step);
    } else if step.TurnAway? || step.Depart? {
      LeaveGateKeepsGated(s, step);
    } else if step.Mark? || step.CloseDone? {
      MarkKeepsGated(s, step);
    } else {
      OtherMoveKeepsGated(s, step);
    }
  }

  /** x and y stand alike towards the gate. */
  predicate GateNeutral(x: Call, y: Call) {
    GateOne(x) == GateOne(y) && ClosingOne(x) == ClosingOne(y) && MarkingOne(x) == MarkingOne(y)
    && (InFlight(y.pc) ==> InFlight(x.pc))
  }

  predicate PassesNoGate(step: Step) {
    !step.Enter? && !step.TurnAway? && !step.Depart? && !step.Mark? && !step.CloseDone?
  }

  lemma ParkMoveIsNeutral(x: Call, step: Step, w: int, s: State)
    requires IsGateStep(step) && CallCan(s, x, step) && IsParkStep(step)
    ensures GateNeutral(x, NextCall(x, step, w)) && NextWord(w, step) == w
  {
  }

  lemma OtherMoveIsNeutral(x: Call, step: Step, w: int, s: State)
    requires IsGateStep(step) && CallCan(s, x, step) && PassesNoGate(step)
    ensures GateNeutral(x, NextCall(x, step, w)) && NextWord(w, step) == w
  {
    if IsParkStep(step) {
      ParkMoveIsNeutral(x, step, w, s);
    }
  }

  lemma OtherMoveKeepsGated(s: State, step: Step)
    requires Gated(s) && IsGateStep(step) && Can(s, step) && PassesNoGate(step)
    ensures Gated(MoveGate(s, step))
  {
    OtherMoveIsNeutral(s.calls[step.c], step, s.word, s);
    OneCallInGateTotals(s, MoveGate(s, step), step.c);
  }

  // ---------- reasons ----------

  lemma WordNeverUnstops(w: int, step: Step)
    requires IsWord(w) && (step.Enter? ==> InFlightBits(w) + 1 < DRAINED)
    requires (step.TurnAway? || step.Depart?) ==> InFlightBits(w) > 0
    ensures Stopped(w) ==> Stopped(NextWord(w, step))
    ensures step.Enter? ==> Stopped(NextWord(w, step)) == Stopped(w)
  {
    ExactlyStopping(w);
    if step.Enter? {
      UpAddsOne(w);
    } else if step.TurnAway? || step.Depart? {
      DownTakesOne(w);
    }
  }

  lemma ParkMoveIsReasoned(x: Call, step: Step, w: int, s: State)
    requires IsGateStep(step) && CallCan(s, x, step) && CallOk(x) && ReasonOk(x, Stopped(w)) && IsParkStep(step)
    ensures ReasonOk(NextCall(x, step, w), Stopped(w))
  {
    if IsKeyPark(step) {
      KeyParkIsReasoned(x, step, w, s);
    } else if IsClaimPark(step) {
      ClaimParkIsReasoned(x, step, w, s);
    } else {
      AttemptIsReasoned(x, step, w, s);
    }
  }

  lemma KeyParkIsReasoned(x: Call, step: Step, w: int, s: State)
    requires IsGateStep(step) && CallCan(s, x, step) && CallOk(x) && ReasonOk(x, Stopped(w)) && IsKeyPark(step)
    ensures ReasonOk(NextCall(x, step, w), Stopped(w))
  {
  }

  lemma ClaimParkIsReasoned(x: Call, step: Step, w: int, s: State)
    requires IsGateStep(step) && CallCan(s, x, step) && CallOk(x) && ReasonOk(x, Stopped(w)) && IsClaimPark(step)
    ensures ReasonOk(NextCall(x, step, w), Stopped(w))
  {
  }

  lemma AttemptIsReasoned(x: Call, step: Step, w: int, s: State)
    requires IsGateStep(step) && CallCan(s, x, step) && CallOk(x) && ReasonOk(x, Stopped(w)) && IsAttemptStep(step)
    ensures ReasonOk(NextCall(x, step, w), Stopped(w))
  {
  }

  lemma NextCallIsReasoned(x: Call, step: Step, w: int, s: State)
    requires IsGateStep(step) && CallCan(s, x, step) && CallOk(x) && ReasonOk(x, Stopped(w))
    requires step.Enter? ==> Stopped(Up(w)) == Stopped(w)
    ensures ReasonOk(NextCall(x, step, w), Stopped(w))
  {
    if IsParkStep(step) {
      ParkMoveIsReasoned(x, step, w, s);
    }
  }

  lemma StoppingOnlyHelps(x: Call, a: bool, b: bool)
    requires ReasonOk(x, a) && (a ==> b)
    ensures ReasonOk(x, b)
  {
  }

  lemma GateMoveKeepsReasoned(s: State, step: Step)
    requires Gated(s) && Reasoned(s) && IsGateStep(step) && Can(s, step) && CallOk(s.calls[step.c])
    ensures Reasoned(MoveGate(s, step))
  {
    var t := MoveGate(s, step);
    if step.TurnAway? || step.Depart? {
      NonNegative(s);
      TotalAtLeast(s.calls, step.c, GateOne);
    }
    WordNeverUnstops(s.word, step);
    NextCallIsReasoned(s.calls[step.c], step, s.word, s);
    forall i | 0 <= i < |t.calls|
      ensures ReasonOk(t.calls[i], Stopped(t.word))
    {
      StoppingOnlyHelps(if i == step.c then t.calls[i] else s.calls[i], Stopped(s.word), Stopped(t.word));
    }
  }

  // ---------- Shutdown threads ----------

  lemma DownMoveKeepsGated(s: State, step: Step)
    requires Gated(s) && !IsCallStep(step) && Can(s, step)
    ensures Gated(MoveDown(s, step).0)
  {
    var t := MoveDown(s, step).0;
    var d := step.d;
    TotalUpdate(s.downs, d, t.downs[d], DownClosingOne);
    TotalUpdate(s.downs, d, t.downs[d], DownMarkOne);
    NonNegative(s);
    NonNegative(t);
    ExactlyStopping(s.word);
    OrSetsOneBit(s.word);
    ExactlyStopping(t.word);
  }

  lemma DownMoveKeepsRest(s: State, step: Step)
    requires Gated(s) && Counted(s) && Reasoned(s) && !IsCallStep(step) && Can(s, step)
    ensures Counted(MoveDown(s, step).0) && Reasoned(MoveDown(s, step).0)
  {
    var t := MoveDown(s, step).0;
    OrSetsOneBit(s.word);
    ExactlyStopping(s.word);
    assert Stopped(s.word) ==> Stopped(t.word);
    forall i | 0 <= i < |t.calls|
      ensures ReasonOk(t.calls[i], Stopped(t.word))
    {
      StoppingOnlyHelps(s.calls[i], Stopped(s.word), Stopped(t.word));
    }
  }
}
