/** The lab's virtual-time model of one call's retry loop. */
module Execs {
  import opened Outcomes

  datatype Block = BlockNone | BlockHold | BlockHoldCtx | BlockDeadline | BlockSleep
  datatype Return = ReturnOK | ReturnPlain | ReturnCtxErr | ReturnTag | ReturnPanic

  /** One scripted handler invocation. */
  datatype Attempt = Attempt(block: Block, sleep: nat, cancel: bool, ret: Return, outcome: int)

  type Script = seq<Attempt>

  /** Attempt n, counted from 1; the last entry repeats. */
  function At(s: Script, n: nat): Attempt {
    if s == [] then Attempt(BlockNone, 0, false, ReturnOK, SUCCESS)
    else if n == 0 then s[0]
    else s[(if n <= |s| then n else |s|) - 1]
  }

  datatype Op = Op(effect: Effect, timeout: int, maxAttempts: int, on: seq<int>)
  datatype Call = Call(precancel: bool, deadline: int, script: Script, input: int)

  /** The rules, the operation and the call an Exec is made for. */
  datatype Setup = Setup(fixed: bool, op: Op, call: Call)

  datatype Class = ClassNil | ClassOverloaded | ClassStopping | ClassCanceled | ClassDeadline | ClassOther

  datatype Result = Result(class_: Class, outcome: int, value: int, panic: bool, calls: nat)

  const NO_RESULT := Result(ClassNil, SUCCESS, 0, false, 0)

  datatype HandlerErr = HandlerErr(class_: Class, tagged: bool, outcome: int)

  datatype State = State(
    now: int, canceledAt: int, attStart: int, held: bool, released: bool,
    calls: nat, retried: nat, done: bool, res: Result)

  /** Somewhere a deadline exists for an attempt that waits for one. */
  predicate WellScripted(u: Setup) {
    forall i :: 0 <= i < |u.call.script| && u.call.script[i].block == BlockDeadline ==>
      u.op.timeout > 0 || u.call.deadline > 0
  }

  function Attempts(op: Op): int {
    if op.maxAttempts > 1 then op.maxAttempts else 1
  }

  predicate SafeRetry(e: Effect, o: int) {
    if o == TRANSIENT then true else if o == UNCERTAIN then e != NonIdempotent else false
  }

  function New(u: Setup): State {
    State(0, if u.call.precancel then 0 else -1, 0, false, false, 0, 0, false, NO_RESULT)
  }

  function CallerEnd(u: Setup, x: State): (Class, int) {
    var dl := u.call.deadline;
    var expired := dl > 0 && x.now >= dl;
    if x.canceledAt >= 0 && (!expired || x.canceledAt < dl) then (ClassCanceled, x.canceledAt)
    else if expired then (ClassDeadline, dl)
    else (ClassNil, 0)
  }

  function CallerErr(u: Setup, x: State): Class {
    CallerEnd(u, x).0
  }

  /** The attempt context's error, and whether its own timer ended it. */
  function AttemptErr(u: Setup, x: State): (Class, bool) {
    var ownAt := x.attStart + u.op.timeout;
    var ownFired := u.op.timeout > 0 && x.now >= ownAt;
    var (c, at) := CallerEnd(u, x);
    if ownFired && (c == ClassNil || at > ownAt || (at == ownAt && c == ClassCanceled)) then (ClassDeadline, true)
    else (c, false)
  }

  /** When an attempt awaiting its context's end wakes up. */
  function DeadlineEnd(u: Setup, x: State): int {
    var dl := u.call.deadline;
    if u.op.timeout > 0 then
      var own := x.attStart + u.op.timeout;
      if dl > 0 && dl < own then dl else own
    else dl
  }

  function Finished(x: State, r: Result): State {
    x.(res := r.(calls := x.calls), done := true, held := false)
  }

  function FailOutcome(o: int): int {
    if o == TRANSIENT || o == PERMANENT || o == THROTTLED || o == UNCERTAIN then o else PERMANENT
  }

  /** The verdict on a failed attempt, and whether it is reported as Uncertain. */
  function Verdict(u: Setup, x: State, err: HandlerErr): (int, bool) {
    var (attErr, own) := AttemptErr(u, x);
    if err.tagged then (err.outcome, false)
    else if u.fixed then
      if err.class_ != ClassCanceled && own && CallerErr(u, x) == ClassNil then (UNCERTAIN, true)
      else (PERMANENT, false)
    else
      var expired := u.op.timeout > 0 && attErr == ClassDeadline;
      (if expired && err.class_ == ClassDeadline then UNCERTAIN else PERMANENT, expired)
  }

  function AfterDecide(u: Setup, x: State, err: HandlerErr): State {
    var (oc, promote) := Verdict(u, x, err);
    if x.calls < Attempts(u.op) && oc in u.op.on && SafeRetry(u.op.effect, oc) then x
    else
      var verdict := if promote then UNCERTAIN else if err.tagged then err.outcome else PERMANENT;
      Finished(x, Result(err.class_, verdict, 0, false, 0))
  }

  function Cancelled(x: State): State {
    if x.canceledAt < 0 then x.(canceledAt := x.now) else x
  }

  /** Attempt a returns; ctxEnded marks a hold cut short by the context. */
  function AfterEnd(u: Setup, x: State, a: Attempt, ctxEnded: bool): State {
    var y := if a.cancel then Cancelled(x) else x;
    var attErr := AttemptErr(u, y).0;
    if ctxEnded then AfterDecide(u, y, HandlerErr(attErr, false, 0))
    else
      match a.ret
      case ReturnPanic => Finished(y, NO_RESULT.(panic := true))
      case ReturnPlain => AfterDecide(u, y, HandlerErr(ClassOther, false, 0))
      case ReturnTag => AfterDecide(u, y, HandlerErr(ClassOther, true, FailOutcome(a.outcome)))
      case _ =>
        if a.ret == ReturnCtxErr && attErr != ClassNil then AfterDecide(u, y, HandlerErr(attErr, false, 0))
        else Finished(y, Result(ClassNil, SUCCESS, u.call.input, false, 0))
  }

  /** The attempt about to run, counted. */
  function Begin(x: State): State {
    x.(retried := if x.calls > 0 then x.retried + 1 else x.retried, calls := x.calls + 1, attStart := x.now)
  }

  predicate Holds(x: State, a: Attempt) {
    (a.block == BlockHold || a.block == BlockHoldCtx) && !x.released
  }

  /** Time once attempt a stops blocking. */
  function Awake(u: Setup, x: State, a: Attempt): State {
    if a.block == BlockDeadline then x.(now := DeadlineEnd(u, x))
    else if a.block == BlockSleep then x.(now := x.now + a.sleep)
    else x
  }

  function Left(u: Setup, x: State): nat {
    if x.done then 0 else if x.calls < Attempts(u.op) then 1 + Attempts(u.op) - x.calls else 1
  }

  /** An attempt that does not finish the call leaves it able to go round
      once more only while attempts remain, so the loop terminates. */
  lemma EndMakesProgress(u: Setup, x: State, a: Attempt, ctxEnded: bool)
    requires x.calls >= 1 && !x.done
    ensures var z := AfterEnd(u, x, a, ctxEnded);
            z.done || (z.calls == x.calls < Attempts(u.op) && z.held == x.held && z.retried == x.retried)
  {
  }

  /** Attempts until the call finishes or an attempt holds. */
  function AfterRun(u: Setup, x: State): State
    decreases Left(u, x)
  {
    if x.done || x.held then x
    else if CallerErr(u, x) != ClassNil then Finished(x, Result(CallerErr(u, x), PERMANENT, 0, false, 0))
    else
      var y := Begin(x);
      var a := At(u.call.script, y.calls);
      if Holds(y, a) then y.(held := true)
      else
        EndMakesProgress(u, Awake(u, y, a), a, false);
        AfterRun(u, AfterEnd(u, Awake(u, y, a), a, false))
  }

  function AfterRelease(u: Setup, x: State): State {
    AfterRun(u, AfterEnd(u, x.(held := false, released := true), At(u.call.script, x.calls), false))
  }

  function AfterCancel(u: Setup, x: State): State {
    var y := Cancelled(x);
    var a := At(u.call.script, x.calls);
    if y.held && a.block == BlockHoldCtx then AfterRun(u, AfterEnd(u, y.(held := false), a, true)) else y
  }

  class Exec {
    const setup: Setup
    var now: int
    var canceledAt: int
    var attStart: int
    var held: bool
    var released: bool
    var calls: nat
    var retried: nat
    var done: bool
    var res: Result

    function Abs(): State
      reads this
    {
      State(now, canceledAt, attStart, held, released, calls, retried, done, res)
    }

    constructor (u: Setup)
      ensures setup == u && Abs() == New(u)
    {
      setup := u;
      now, canceledAt, attStart, held, released := 0, -1, 0, false, false;
      calls, retried, done, res := 0, 0, false, NO_RESULT;
      if u.call.precancel {
        canceledAt := 0;
      }
    }

    method Run()
      requires WellScripted(setup)
      modifies this
      ensures Abs() == AfterRun(setup, old(Abs()))
    {
      while !done && !held
        invariant AfterRun(setup, Abs()) == AfterRun(setup, old(Abs()))
        decreases Left(setup, Abs())
      {
        if CallerErr(setup, Abs()) != ClassNil {
          Finish(Result(CallerErr(setup, Abs()), PERMANENT, 0, false, 0));
          return;
        }
        var a := Block();
        if held {
          return;
        }
        EndMakesProgress(setup, Abs(), a, false);
        End(a, false);
      }
    }

    /** Counts the next attempt and lets it block: it holds, or time passes. */
    method Block() returns (a: Attempt)
      requires WellScripted(setup) && !held && !done
      modifies this
      ensures var y := Begin(old(Abs()));
              a == At(setup.call.script, y.calls)
              && Abs() == if Holds(y, a) then y.(held := true) else Awake(setup, y, a)
    {
      if calls > 0 {
        retried := retried + 1;
      }
      calls := calls + 1;
      attStart := now;
      a := At(setup.call.script, calls);
      match a.block {
        case BlockHold =>
          if !released {
            held := true;
          }
        case BlockHoldCtx =>
          if !released {
            held := true;
          }
        case BlockDeadline => now := DeadlineEnd(setup, Abs());
        case BlockSleep => now := now + a.sleep;
        case BlockNone =>
      }
    }

    method Release()
      requires WellScripted(setup)
      modifies this
      ensures Abs() == AfterRelease(setup, old(Abs()))
    {
      held, released := false, true;
      End(At(setup.call.script, calls), false);
      Run();
    }

    method Cancel()
      requires WellScripted(setup)
      modifies this
      ensures Abs() == AfterCancel(setup, old(Abs()))
    {
      if canceledAt < 0 {
        canceledAt := now;
      }
      if held && At(setup.call.script, calls).block == BlockHoldCtx {
        held := false;
        End(At(setup.call.script, calls), true);
        Run();
      }
    }

    method End(a: Attempt, ctxEnded: bool)
      modifies this
      ensures Abs() == AfterEnd(setup, old(Abs()), a, ctxEnded)
    {
      if a.cancel && canceledAt < 0 {
        canceledAt := now;
      }
      var attErr := AttemptErr(setup, Abs()).0;
      if ctxEnded {
        Decide(HandlerErr(attErr, false, 0));
      } else if a.ret == ReturnPanic {
        Finish(NO_RESULT.(panic := true));
      } else if a.ret == ReturnPlain {
        Decide(HandlerErr(ClassOther, false, 0));
      } else if a.ret == ReturnTag {
        Decide(HandlerErr(ClassOther, true, FailOutcome(a.outcome)));
      } else if a.ret == ReturnCtxErr && attErr != ClassNil {
        Decide(HandlerErr(attErr, false, 0));
      } else {
        Finish(Result(ClassNil, SUCCESS, setup.call.input, false, 0));
      }
    }

    method Decide(err: HandlerErr)
      modifies this
      ensures Abs() == AfterDecide(setup, old(Abs()), err)
    {
      var (oc, promote) := Verdict(setup, Abs(), err);
      if calls < Attempts(setup.op) && oc in setup.op.on && SafeRetry(setup.op.effect, oc) {
        return;
      }
      var r := Result(err.class_, if err.tagged then err.outcome else PERMANENT, 0, false, 0);
      if promote {
        r := r.(outcome := UNCERTAIN);
      }
      Finish(r);
    }

    method Finish(r: Result)
      modifies this
      ensures Abs() == Finished(old(Abs()), r)
    {
      res, done, held := r.(calls := calls), true, false;
    }
  }
}
