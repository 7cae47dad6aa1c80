/** A call moves by its own steps only, and a caller whose context has ended
    before admission takes nothing. */
module Callers {
  import opened Claims
  import opened Protocol
  import opened Invariant
  import opened KeyInvariant
  import opened GateInvariant
  import opened Safety
  import opened Progress

  /** The step is call c's own. */
  predicate IsOf(step: Step, c: nat) {
    IsCallStep(step) && step.c == c
  }

  lemma OthersStand(s: State, step: Step, c: nat)
    requires Inv(s) && Can(s, step) && c < |s.calls| && !IsOf(step, c)
    ensures |Do(s, step).calls| == |s.calls| && SameAge(s.calls[c], Do(s, step).calls[c])
  {
    if IsCallStep(step) {
      CallStepAges(s, step);
    } else {
      DownMoveKeepsOuter(s, step);
      DownMoveShape(s, step);
      DownCompletionAgesNone(MoveDown(s, step).0, MoveDown(s, step).1);
    }
  }

  /** Not yet admitted to a key or a budget. */
  predicate AtTheDoor(pc: Pc) {
    pc.Idle? || pc.Turned? || pc.Entered? || pc.Admitting?
  }

  predicate OnTheWayOut(pc: Pc) {
    pc.Exiting? || pc.Departing? || pc == Marking(true) || pc == Closing(true) || pc == Returned(true)
  }

  predicate Refused(pc: Pc) {
    pc == Marking(false) || pc == Closing(false) || pc.Tallying? || pc == Returned(false)
  }

  /** A call that would take a key or wait for units, but whose caller is gone. */
  predicate Spent(x: Call) {
    && x.ended && (x.key != "" || x.mode == Wait) && x.tries == 0
    && (AtTheDoor(x.pc) || Refused(x.pc) || (OnTheWayOut(x.pc) && x.result == ContextEnded))
  }

  lemma SpentTakesGateSteps(x: Call, step: Step, s: State)
    requires IsCallStep(step) && CallCan(s, x, step) && Spent(x)
    ensures IsGateStep(step)
  {
  }

  lemma SpentMovesOn(x: Call, step: Step, w: int, s: State)
    requires IsGateStep(step) && CallCan(s, x, step) && Spent(x)
    ensures Spent(NextCall(x, step, w))
  {
  }

  lemma StepKeepsSpent(s: State, step: Step, c: nat)
    requires Inv(s) && Can(s, step) && c < |s.calls| && Spent(s.calls[c])
    ensures c < |Do(s, step).calls| && Spent(Do(s, step).calls[c])
  {
    if IsOf(step, c) {
      SpentTakesGateSteps(s.calls[c], step, s);
      SpentMovesOn(s.calls[c], step, s.word, s);
      GateStepIsItsMove(s, step);
    } else {
      OthersStand(s, step, c);
    }
  }

  lemma SpentAlong(ss: seq<State>, steps: seq<Step>, k: nat, c: nat)
    requires Run(ss, steps) && Inv(ss[0]) && k < |steps| && c < |ss[k].calls| && Spent(ss[k].calls[c])
    ensures c < |ss[k + 1].calls| && Spent(ss[k + 1].calls[c])
  {
    RunKeepsInv(ss, steps, k);
    assert RunAt(ss, steps, k);
    StepKeepsSpent(ss[k], steps[k], c);
  }

  /** Only a live caller takes a key or waits: from then on the call is never
      charged, never owns or queues for anything, never runs its handler, and
      if it was let in it reports its own context. */
  lemma {:induction false} DoneCallerTakesNothing(ss: seq<State>, steps: seq<Step>, i: nat, j: nat, c: nat)
    requires Run(ss, steps) && Inv(ss[0]) && i <= j < |ss| && c < |ss[i].calls|
    requires var x := ss[i].calls[c]; x.ended && AtTheDoor(x.pc) && (x.key != "" || x.mode == Wait)
    ensures c < |ss[j].calls|
    ensures var x := ss[j].calls[c];
            && Held(x) == 0 && !Queued(x) && !OwnsKey(x) && !AwaitsKey(x) && x.tries == 0
            && (x.pc == Returned(true) ==> x.result == ContextEnded)
            && Spent(x)
    decreases j
  {
    if i == j {
      RunKeepsInv(ss, steps, i);
      assert CallOk(ss[i].calls[c]);
    } else {
      DoneCallerTakesNothing(ss, steps, i, j - 1, c);
      SpentAlong(ss, steps, j - 1, c);
    }
  }

  // ---------- an ended context ----------

  /** Attempts begun, or about to be counted. */
  function Begun(x: Call): int {
    x.tries + if x.pc.Counting? then 1 else 0
  }

  /** Past its last attempt, on the way out with the caller's own error. */
  predicate GivingBack(pc: Pc) {
    (pc.Releasing? && !pc.failed) || OnTheWayOut(pc)
  }

  /** Between attempts with the caller gone, and from there on. */
  predicate Winding(x: Call) {
    x.ended && (x.pc.Looping? || (x.result == ContextEnded && GivingBack(x.pc)))
  }

  /** How a call whose context has ended moves on. */
  predicate StartsNothing(x: Call, y: Call) {
    && y.ended && Begun(y) <= Begun(x)
    && (Winding(x) ==> Winding(y) && y.tries == x.tries)
  }

  lemma GateStepStartsNothing(x: Call, step: Step, w: int, s: State)
    requires IsGateStep(step) && CallCan(s, x, step) && x.ended
    ensures StartsNothing(x, NextCall(x, step, w))
  {
  }

  lemma RequestStartsNothing(s: State, step: Step)
    requires (step.Load? || step.Try? || step.Acquire?) && Can(s, step) && s.calls[step.c].ended
    ensures var t := MoveClaim(s, step).0; step.c < |t.calls| && StartsNothing(s.calls[step.c], t.calls[step.c])
  {
  }

  lemma ReturnStartsNothing(s: State, step: Step)
    requires (step.Leave? || step.Release?) && Can(s, step) && s.calls[step.c].ended
    ensures var t := MoveClaim(s, step).0; step.c < |t.calls| && StartsNothing(s.calls[step.c], t.calls[step.c])
  {
  }

  lemma KeyMoveStartsNothing(s: State, step: Step)
    requires IsKeyStep(step) && Can(s, step) && s.calls[step.c].ended
    ensures var t := MoveKey(s, step).0; step.c < |t.calls| && StartsNothing(s.calls[step.c], t.calls[step.c])
  {
  }

  lemma StandingStartsNothing(x: Call, y: Call, z: Call)
    requires StartsNothing(x, y) && SameAge(y, z)
    ensures StartsNothing(x, z)
  {
  }

  lemma ClaimStepStartsNothing(s: State, step: Step)
    requires Inv(s) && IsClaimStep(step) && Can(s, step) && s.calls[step.c].ended
    ensures step.c < |Do(s, step).calls| && StartsNothing(s.calls[step.c], Do(s, step).calls[step.c])
  {
    if step.Leave? || step.Release? {
      ReturnStartsNothing(s, step);
    } else {
      RequestStartsNothing(s, step);
    }
    ClaimCompletionAgesNone(s, step);
    StandingStartsNothing(s.calls[step.c], MoveClaim(s, step).0.calls[step.c], Do(s, step).calls[step.c]);
  }

  lemma KeyStepStartsNothing(s: State, step: Step)
    requires Inv(s) && IsKeyStep(step) && Can(s, step) && s.calls[step.c].ended
    ensures step.c < |Do(s, step).calls| && StartsNothing(s.calls[step.c], Do(s, step).calls[step.c])
  {
    KeyMoveStartsNothing(s, step);
    KeyStepIsItsMove(s, step);
    KeyCompletionAgesNone(MoveKey(s, step).0, MoveKey(s, step).1);
    StandingStartsNothing(s.calls[step.c], MoveKey(s, step).0.calls[step.c], Do(s, step).calls[step.c]);
  }

  lemma GateMoveStartsNothing(s: State, step: Step)
    requires IsGateStep(step) && Can(s, step) && s.calls[step.c].ended
    ensures step.c < |Do(s, step).calls| && StartsNothing(s.calls[step.c], Do(s, step).calls[step.c])
  {
    GateStepStartsNothing(s.calls[step.c], step, s.word, s);
    GateStepIsItsMove(s, step);
  }

  lemma OwnStepStartsNothing(s: State, step: Step, t: State)
    requires Inv(s) && IsCallStep(step) && Can(s, step) && s.calls[step.c].ended && t == Do(s, step)
    ensures step.c < |t.calls| && StartsNothing(s.calls[step.c], t.calls[step.c])
  {
    if IsClaimStep(step) {
      ClaimStepStartsNothing(s, step);
    } else if IsKeyStep(step) {
      KeyStepStartsNothing(s, step);
    } else {
      GateMoveStartsNothing(s, step);
    }
  }

  lemma RunStepStartsNothing(ss: seq<State>, steps: seq<Step>, k: nat, c: nat)
    requires Run(ss, steps) && Inv(ss[0]) && k < |steps| && c < |ss[k].calls| && ss[k].calls[c].ended
    ensures c < |ss[k + 1].calls| && StartsNothing(ss[k].calls[c], ss[k + 1].calls[c])
  {
    RunKeepsInv(ss, steps, k);
    assert RunAt(ss, steps, k);
    if IsOf(steps[k], c) {
      OwnStepStartsNothing(ss[k], steps[k], ss[k + 1]);
    } else {
      OthersStand(ss[k], steps[k], c);
    }
  }

  /** Once its context has ended a call begins no further attempt, except one
      already past its test of the context; and one caught between attempts
      gives everything back and reports the context's error. */
  lemma {:induction false} EndedCallerStartsNothing(ss: seq<State>, steps: seq<Step>, i: nat, j: nat, c: nat)
    requires Run(ss, steps) && Inv(ss[0]) && i <= j < |ss| && c < |ss[i].calls| && ss[i].calls[c].ended
    ensures c < |ss[j].calls|
    ensures var x, y := ss[i].calls[c], ss[j].calls[c];
            && y.tries <= Begun(x)
            && (x.pc.Looping? && y.pc.Returned? ==> y.result == ContextEnded && y.tries == x.tries)
            && StartsNothing(x, y)
    decreases j
  {
    if i < j {
      var k := j - 1;
      EndedCallerStartsNothing(ss, steps, i, k, c);
      RunStepStartsNothing(ss, steps, k, c);
    }
  }

  /** Before its handler first runs, an ended caller that reaches a Wait claim
      still takes it exactly when the units are free at once: the context is
      tested before the key, not before each claim. */
  lemma LateEndTakesWhatIsFree(s: State, c: nat)
    requires Inv(s) && Can(s, Acquire(c)) && s.calls[c].ended
    ensures StepClaim(s, Acquire(c)).r in s.budgets && c < |Do(s, Acquire(c)).calls|
    ensures var x, y := s.calls[c], Do(s, Acquire(c)).calls[c]; var Claim(r, n) := StepClaim(s, Acquire(c));
            && (y.pc == Claiming(x.pc.i + 1) <==> s.budgets[r].queue == [] && s.budgets[r].cur + n <= s.budgets[r].size)
            && (y.pc == Claiming(x.pc.i + 1) || y.pc == Releasing(x.pc.i, true))
  {
    StepClaimOk(s, Acquire(c));
    ClaimStepIsItsMove(s, Acquire(c));
  }
}
