/** The runtime's attempt loop, in virtual time with Go's context rules, shows
    callers exactly what the lab's model of it predicts. */
module RetryAgreement {
  import opened Outcomes
  import opened Execs
  import A = Attempts
  import V = Validate

  /** What the outside does while an attempt holds. */
  datatype Event = LetGo | CancelCaller

  // ---------- the lab's prediction ----------

  /** Events reach the model one at a time, while an attempt holds. */
  function Drive(u: Setup, x: State, events: seq<Event>): State
    decreases |events|
  {
    if x.done || events == [] then x
    else Drive(u, if events[0] == LetGo then AfterRelease(u, x) else AfterCancel(u, x), events[1..])
  }

  // ---------- the runtime's world ----------

  /** The clock, how the caller's context ended if it did, whether holds are
      lifted, and what is still to happen outside. */
  datatype World = World(now: int, caller: Class, released: bool, events: seq<Event>)

  /** The world as a handler sees it, with its own context. */
  datatype Inside = Inside(w: World, att: Class)

  /** Time passes to t. The first timer to fire decides each context; a context
      that ends takes its children with it. */
  function Advance(u: Setup, i: Inside, ownAt: int, t: int): Inside {
    var dl := u.call.deadline;
    var caller := if i.w.caller == ClassNil && 0 < dl <= t then ClassDeadline else i.w.caller;
    var att :=
      if i.att != ClassNil then i.att
      else if caller != ClassNil then caller
      else if u.op.timeout > 0 && ownAt <= t then ClassDeadline
      else ClassNil;
    Inside(i.w.(now := t, caller := caller), att)
  }

  /** The caller's cancel function: the first cause wins. */
  function CancelIn(i: Inside): Inside {
    Inside(i.w.(caller := if i.w.caller == ClassNil then ClassCanceled else i.w.caller),
           if i.att == ClassNil then ClassCanceled else i.att)
  }

  /** ctx.Err() of a context that ended. */
  function CtxErr(c: Class): Err {
    if c == ClassCanceled then Canceled else DeadlineExceeded
  }

  datatype Waited = Stuck | Awoken(i: Inside, ended: bool)

  /** The handler blocks until let go or, if it heeds its context, until that ends. */
  function Hold(i: Inside, heedsCtx: bool): Waited
    decreases |i.w.events|
  {
    if i.w.events == [] then Stuck
    else
      var j := Inside(i.w.(events := i.w.events[1..]), i.att);
      if i.w.events[0] == LetGo then Awoken(Inside(j.w.(released := true), j.att), false)
      else if heedsCtx then Awoken(CancelIn(j), true)
      else Hold(CancelIn(j), heedsCtx)
  }

  /** When the handler's context ends by a timer. */
  function Earliest(u: Setup, ownAt: int): int {
    var dl := u.call.deadline;
    if u.op.timeout > 0 && !(0 < dl < ownAt) then ownAt else dl
  }

  function Wait(u: Setup, i: Inside, a: Attempt, ownAt: int): Waited {
    match a.block
    case BlockNone => Awoken(i, false)
    case BlockSleep => Awoken(Advance(u, i, ownAt, i.w.now + a.sleep), false)
    case BlockDeadline => Awoken(Advance(u, i, ownAt, Earliest(u, ownAt)), false)
    case _ => if i.w.released then Awoken(i, false) else Hold(i, a.block == BlockHoldCtx)
  }

  /** What the scripted handler returns. */
  function Answer(u: Setup, i: Inside, a: Attempt): A.Out {
    match a.ret
    case ReturnPanic => A.Panic
    case ReturnPlain => A.Error(Leaf(0))
    case ReturnTag => A.Error(Fail(a.outcome, Some(Leaf(0))).value)
    case ReturnCtxErr => if i.att == ClassNil then A.Value(u.call.input) else A.Error(CtxErr(i.att))
    case ReturnOK => A.Value(u.call.input)
  }

  function AfterWait(u: Setup, i: Inside, a: Attempt, ended: bool): (Inside, A.Out) {
    if ended then (i, if i.att == ClassNil then A.Value(u.call.input) else A.Error(CtxErr(i.att)))
    else
      var j := if a.cancel then CancelIn(i) else i;
      (j, Answer(u, j, a))
  }

  /** attempt's own-deadline flag. */
  predicate Expired(op: A.Limits, i: Inside, out: A.Out) {
    op.timeout > 0 && out.Error? && i.att == ClassDeadline && i.w.caller == ClassNil
  }

  predicate Again(op: A.Limits, n: nat, i: Inside, out: A.Out) {
    out.Error? && A.AfterFailure(op, n, out.err, Expired(op, i, out)) == None
  }

  /** turns is what the loop meets from attempt n on. */
  predicate Plays(u: Setup, op: A.Limits, n: nat, w: World, turns: seq<A.Turn>)
    decreases |turns|
  {
    turns != [] &&
    if w.caller != ClassNil then turns == [A.Turn(Some(CtxErr(w.caller)), A.NotYet, false)]
    else
      match Wait(u, Inside(w, ClassNil), At(u.call.script, n), w.now + op.timeout)
      case Stuck => turns == [A.Turn(None, A.NotYet, false)]
      case Awoken(i, ended) =>
        var (j, out) := AfterWait(u, i, At(u.call.script, n), ended);
        && turns[0] == A.Turn(None, out, Expired(op, j, out))
        && if Again(op, n, j, out) then Plays(u, op, n + 1, j.w, turns[1..]) else |turns| == 1
  }

  // ---------- what callers see ----------

  datatype Seen = Seen(done: bool, class_: Class, outcome: int, value: int, panic: bool, calls: int, retried: int)

  function LabSees(x: State): Seen {
    if x.done then Seen(true, x.res.class_, x.res.outcome, x.res.value, x.res.panic, x.res.calls, x.retried)
    else Seen(false, ClassNil, SUCCESS, 0, false, x.calls, x.retried)
  }

  function ClassOf(e: Err): Class {
    if Is(e, Canceled) then ClassCanceled else if Is(e, DeadlineExceeded) then ClassDeadline else ClassOther
  }

  function RootSees(t: A.Trace): Seen {
    var c, r := A.Begun(t), t.retried;
    match t.end
    case Returned(v) => Seen(true, ClassNil, SUCCESS, v, false, c, r)
    case Failing(err) => Seen(true, ClassOf(err), OutcomeOf(Some(err)), 0, false, c, r)
    case Panicked => Seen(true, ClassNil, SUCCESS, 0, true, c, r)
    case _ => Seen(false, ClassNil, SUCCESS, 0, false, c, r)
  }

  // ---------- agreement ----------

  /** The operation is the one construction makes of the lab's description. */
  ghost predicate Matches(u: Setup, op: A.Limits) {
    && u.fixed && WellScripted(u)
    && op.timeout == V.Max(u.op.timeout, 0) && op.attempts == V.Max(u.op.maxAttempts, 1)
    && forall o :: o in op.again <==> o in u.op.on && Safe(u.op.effect, o)
  }

  predicate Same(u: Setup, x: State, w: World) {
    && !x.done && 0 <= x.now == w.now && x.released == w.released
    && CallerErr(u, x) == w.caller
    && x.canceledAt <= x.now && (x.canceledAt >= 0 ==> w.caller != ClassNil)
  }

  predicate AtHead(u: Setup, x: State, w: World, n: nat) {
    Same(u, x, w) && !x.held && n == x.calls + 1
  }

  /** Both in attempt n, agreeing on both contexts. */
  predicate Mid(u: Setup, x: State, i: Inside, n: nat) {
    && Same(u, x, i.w) && !x.held && n == x.calls >= 1
    && x.attStart <= x.now
    && AttemptErr(u, x).0 == i.att
    && (i.w.caller == ClassNil ==> AttemptErr(u, x).1 == (i.att == ClassDeadline))
    && (i.att == ClassDeadline && i.w.caller == ClassNil ==> u.op.timeout > 0)
  }

  lemma BeginIsMid(u: Setup, x: State, w: World, n: nat)
    requires AtHead(u, x, w, n) && w.caller == ClassNil
    ensures Mid(u, Begin(x), Inside(w, ClassNil), n)
  {
  }

  lemma AdvanceKeepsMid(u: Setup, x: State, i: Inside, n: nat, t: int)
    requires Mid(u, x, i, n) && t >= x.now
    ensures Mid(u, x.(now := t), Advance(u, i, x.attStart + u.op.timeout, t), n)
  {
  }

  lemma CancelKeepsMid(u: Setup, x: State, i: Inside, n: nat)
    requires Mid(u, x, i, n)
    ensures Mid(u, Cancelled(x), CancelIn(i), n)
  {
  }

  // ---------- verdicts ----------

  /** The handler's result in the lab's neutral terms. */
  function Neutral(err: Err): HandlerErr {
    HandlerErr(ClassOf(err), Tagged(err).Some?, if Tagged(err).Some? then Tagged(err).value else 0)
  }

  lemma VerdictsAgree(u: Setup, op: A.Limits, x: State, i: Inside, n: nat, err: Err)
    requires Matches(u, op) && Mid(u, x, i, n)
    ensures Verdict(u, x, Neutral(err)) == Classify(err, Expired(op, i, A.Error(err)))
  {
  }

  /** Deciding after a failed attempt: both go round again, or both return the
      same class and outcome. */
  lemma DecisionsAgree(u: Setup, op: A.Limits, x: State, i: Inside, n: nat, err: Err)
    requires Matches(u, op) && Mid(u, x, i, n)
    ensures var y := AfterDecide(u, x, Neutral(err));
            var stop := A.AfterFailure(op, n, err, Expired(op, i, A.Error(err)));
            if stop == None then y == x && n < op.attempts
            else y.done && y.res == Result(ClassOf(stop.value), OutcomeOf(stop), 0, false, n) && y.retried == x.retried
  {
    VerdictsAgree(u, op, x, i, n, err);
    VerdictIsReported(err, Expired(op, i, A.Error(err)));
    FailedKeepsClass(err);
  }

  lemma FailedKeepsClass(err: Err)
    ensures ClassOf(Failed(err, true)) == ClassOf(err)
  {
    assert forall target: Err :: target.Canceled? || target.DeadlineExceeded? ==>
        Is(Failure(UNCERTAIN, Some(err)), target) == Is(err, target);
  }

  lemma TagNormalizesLikeTheLab(o: int)
    ensures var e := Fail(o, Some(Leaf(0))).value;
            Neutral(e) == HandlerErr(ClassOther, true, FailOutcome(o))
  {
    assert First(Leaf(0)) == None;
  }

  // ---------- the runtime's run, as callers see it ----------

  /** From attempt n on, r retries counted so far. */
  function RootRun(u: Setup, op: A.Limits, n: nat, w: World, r: int): Seen
    decreases if n <= op.attempts then op.attempts + 1 - n else 0, 1
  {
    if w.caller != ClassNil then
      Seen(true, ClassOf(CtxErr(w.caller)), OutcomeOf(Some(CtxErr(w.caller))), 0, false, n - 1, r)
    else
      var a := At(u.call.script, n);
      var q := if n > 1 then r + 1 else r;
      match Wait(u, Inside(w, ClassNil), a, w.now + op.timeout)
      case Stuck => Seen(false, ClassNil, SUCCESS, 0, false, n, q)
      case Awoken(i, ended) => RootTail(u, op, n, i, a, ended, q)
  }

  function RootTail(u: Setup, op: A.Limits, n: nat, i: Inside, a: Attempt, ended: bool, q: int): Seen
    decreases if n <= op.attempts then op.attempts + 1 - n else 0, 0
  {
    var (j, out) := AfterWait(u, i, a, ended);
    if Again(op, n, j, out) then RootRun(u, op, n + 1, j.w, q) else LastSees(op, n, j, out, q)
  }

  function LastSees(op: A.Limits, n: nat, j: Inside, out: A.Out, q: int): Seen {
    match out
    case NotYet => Seen(false, ClassNil, SUCCESS, 0, false, n, q)
    case Panic => Seen(true, ClassNil, SUCCESS, 0, true, n, q)
    case Value(v) => Seen(true, ClassNil, SUCCESS, v, false, n, q)
    case Error(err) =>
      var stop := A.AfterFailure(op, n, err, Expired(op, j, out));
      Seen(true, if stop.Some? then ClassOf(stop.value) else ClassNil, OutcomeOf(stop), 0, false, n, q)
  }

  lemma LastTurn(op: A.Limits, j: Inside, out: A.Out, turns: seq<A.Turn>, t: A.Trace)
    requires var n := A.Begun(t) + 1;
             !Again(op, n, j, out) && turns != [] && turns[0] == A.Turn(None, out, Expired(op, j, out))
    ensures RootSees(A.Loop(op, turns, t)) == LastSees(op, A.Begun(t) + 1, j, out, A.Count(t).retried)
  {
  }

  /** The attempt fails and is repeated. */
  predicate Continues(u: Setup, op: A.Limits, n: nat, w: World) {
    var a := At(u.call.script, n);
    var k := Wait(u, Inside(w, ClassNil), a, w.now + op.timeout);
    k.Awoken? && var (j, out) := AfterWait(u, k.i, a, k.ended); Again(op, n, j, out)
  }

  /** One round of the world when the attempt is repeated. */
  lemma PlaysRound(u: Setup, op: A.Limits, n: nat, w: World, turns: seq<A.Turn>, r: int) returns (next: World)
    requires n > 0 && Plays(u, op, n, w, turns) && w.caller == ClassNil && Continues(u, op, n, w)
    ensures turns[0].ended == None && turns[0].out.Error?
    ensures A.AfterFailure(op, n, turns[0].out.err, turns[0].expired) == None && n < op.attempts
    ensures Plays(u, op, n + 1, next, turns[1..])
    ensures RootRun(u, op, n, w, r) == RootRun(u, op, n + 1, next, if n > 1 then r + 1 else r)
  {
    var a := At(u.call.script, n);
    var k := Wait(u, Inside(w, ClassNil), a, w.now + op.timeout);
    next := AfterWait(u, k.i, a, k.ended).0.w;
  }

  lemma LastRound(u: Setup, op: A.Limits, w: World, turns: seq<A.Turn>, t: A.Trace)
    requires var n := A.Begun(t) + 1; Plays(u, op, n, w, turns) && (w.caller == ClassNil ==> !Continues(u, op, n, w))
    ensures RootRun(u, op, A.Begun(t) + 1, w, t.retried) == RootSees(A.Loop(op, turns, t))
  {
    if w.caller == ClassNil {
      var n := A.Begun(t) + 1;
      var a := At(u.call.script, n);
      match Wait(u, Inside(w, ClassNil), a, w.now + op.timeout)
      case Stuck =>
      case Awoken(i, ended) =>
        var (j, out) := AfterWait(u, i, a, ended);
        LastTurn(op, j, out, turns, t);
    }
  }

  /** What callers see is what the attempt loop does with its turns. */
  lemma {:induction false} RootRunIsLoop(u: Setup, op: A.Limits, w: World, turns: seq<A.Turn>, t: A.Trace)
    requires Plays(u, op, A.Begun(t) + 1, w, turns)
    ensures RootRun(u, op, A.Begun(t) + 1, w, t.retried) == RootSees(A.Loop(op, turns, t))
    decreases |turns|
  {
    var n := A.Begun(t) + 1;
    if w.caller == ClassNil && Continues(u, op, n, w) {
      var next := PlaysRound(u, op, n, w, turns, t.retried);
      var d := A.Judge(A.Count(t), Classify(turns[0].out.err, turns[0].expired).0);
      RootRunIsLoop(u, op, next, turns[1..], d);
    } else {
      LastRound(u, op, w, turns, t);
    }
  }

  // ---------- one attempt ends ----------

  lemma EndIsMid(u: Setup, x: State, i: Inside, a: Attempt, ended: bool, n: nat)
    requires Mid(u, x, i, n) && (ended ==> i.att != ClassNil && i.w.caller != ClassNil)
    ensures Mid(u, if a.cancel then Cancelled(x) else x, AfterWait(u, i, a, ended).0, n)
  {
    CancelKeepsMid(u, x, i, n);
  }

  /** The error a failed scripted attempt hands to the lab's rule. */
  lemma EndDecides(u: Setup, op: A.Limits, x: State, i: Inside, a: Attempt, ended: bool, n: nat)
    requires Mid(u, x, i, n) && (ended ==> i.att != ClassNil && i.w.caller != ClassNil)
    ensures var (j, out) := AfterWait(u, i, a, ended); var z := if a.cancel then Cancelled(x) else x;
            Mid(u, z, j, n) && z.retried == x.retried
            && match out
               case Error(err) => AfterEnd(u, x, a, ended) == AfterDecide(u, z, Neutral(err))
               case Panic => AfterEnd(u, x, a, ended) == Finished(z, NO_RESULT.(panic := true))
               case Value(v) => AfterEnd(u, x, a, ended) == Finished(z, Result(ClassNil, SUCCESS, v, false, 0))
               case NotYet => false
  {
    EndIsMid(u, x, i, a, ended, n);
    TagNormalizesLikeTheLab(a.outcome);
  }

  /** An attempt ends the same way on both sides. */
  lemma EndAgrees(u: Setup, op: A.Limits, x: State, i: Inside, a: Attempt, ended: bool, n: nat)
    requires Matches(u, op) && Mid(u, x, i, n)
    requires ended ==> i.att != ClassNil && i.w.caller != ClassNil
    ensures var (j, out) := AfterWait(u, i, a, ended); var y := AfterEnd(u, x, a, ended);
            if Again(op, n, j, out) then AtHead(u, y, j.w, n + 1) && n < op.attempts && y.retried == x.retried
            else y.done && LabSees(y) == LastSees(op, n, j, out, x.retried)
  {
    var (j, out) := AfterWait(u, i, a, ended);
    EndDecides(u, op, x, i, a, ended, n);
    if out.Error? {
      DecisionsAgree(u, op, if a.cancel then Cancelled(x) else x, j, n, out.err);
    }
  }

  // ---------- the whole call ----------

  /** What the lab shows after x runs on through the events. */
  function LabShows(u: Setup, x: State, events: seq<Event>): Seen {
    LabSees(Drive(u, AfterRun(u, x), events))
  }

  lemma DoneShows(u: Setup, y: State, events: seq<Event>)
    requires y.done
    ensures LabShows(u, y, events) == LabSees(y)
  {
  }

  lemma {:induction false} TailAgrees(u: Setup, op: A.Limits, x: State, i: Inside, a: Attempt, ended: bool, n: nat)
    requires Matches(u, op) && Mid(u, x, i, n) && n <= op.attempts
    requires ended ==> i.att != ClassNil && i.w.caller != ClassNil
    ensures LabShows(u, AfterEnd(u, x, a, ended), i.w.events) == RootTail(u, op, n, i, a, ended, x.retried)
    decreases op.attempts - n, 0, 0
  {
    var (j, out) := AfterWait(u, i, a, ended);
    var y := AfterEnd(u, x, a, ended);
    EndAgrees(u, op, x, i, a, ended, n);
    if Again(op, n, j, out) {
      HeadAgrees(u, op, y, j.w, n + 1);
    } else {
      DoneShows(u, y, i.w.events);
    }
  }

  lemma {:induction false} HoldAgrees(u: Setup, op: A.Limits, x: State, i: Inside, a: Attempt, n: nat)
    requires Matches(u, op) && Mid(u, x, i, n) && n <= op.attempts
    requires a == At(u.call.script, n) && (a.block == BlockHold || a.block == BlockHoldCtx)
    ensures LabSees(Drive(u, x.(held := true), i.w.events)) ==
            match Hold(i, a.block == BlockHoldCtx)
            case Stuck => Seen(false, ClassNil, SUCCESS, 0, false, n, x.retried)
            case Awoken(k, ended) => RootTail(u, op, n, k, a, ended, x.retried)
    decreases op.attempts - n, 1, |i.w.events|
  {
    if i.w.events != [] {
      var j := Inside(i.w.(events := i.w.events[1..]), i.att);
      if i.w.events[0] == LetGo {
        TailAgrees(u, op, x.(released := true), Inside(j.w.(released := true), j.att), a, false, n);
      } else {
        CancelKeepsMid(u, x, j, n);
        if a.block == BlockHoldCtx {
          TailAgrees(u, op, Cancelled(x), CancelIn(j), a, true, n);
        } else {
          HoldAgrees(u, op, Cancelled(x), CancelIn(j), a, n);
        }
      }
    }
  }

  lemma EndedHeadAgrees(u: Setup, op: A.Limits, x: State, w: World, n: nat)
    requires AtHead(u, x, w, n) && w.caller != ClassNil
    ensures LabShows(u, x, w.events) == RootRun(u, op, n, w, x.retried)
  {
  }

  /** One round of the lab's loop up to where the attempt stops blocking. */
  lemma RunWakes(u: Setup, x: State, events: seq<Event>)
    requires !x.done && !x.held && CallerErr(u, x) == ClassNil
    requires !Holds(Begin(x), At(u.call.script, x.calls + 1))
    ensures var a := At(u.call.script, x.calls + 1);
            LabShows(u, x, events) == LabShows(u, AfterEnd(u, Awake(u, Begin(x), a), a, false), events)
  {
  }

  lemma RunHolds(u: Setup, x: State, events: seq<Event>)
    requires !x.done && !x.held && CallerErr(u, x) == ClassNil
    requires Holds(Begin(x), At(u.call.script, x.calls + 1))
    ensures LabShows(u, x, events) == LabSees(Drive(u, Begin(x).(held := true), events))
  {
  }

  lemma {:induction false} HeadAgrees(u: Setup, op: A.Limits, x: State, w: World, n: nat)
    requires Matches(u, op) && AtHead(u, x, w, n) && n <= op.attempts
    ensures LabShows(u, x, w.events) == RootRun(u, op, n, w, x.retried)
    decreases op.attempts - n, 3, 0
  {
    if w.caller != ClassNil {
      EndedHeadAgrees(u, op, x, w, n);
    } else if Holds(Begin(x), At(u.call.script, n)) {
      HoldingHeadAgrees(u, op, x, w, n);
    } else {
      WakingHeadAgrees(u, op, x, w, n);
    }
  }

  lemma {:induction false} HoldingHeadAgrees(u: Setup, op: A.Limits, x: State, w: World, n: nat)
    requires Matches(u, op) && AtHead(u, x, w, n) && n <= op.attempts
    requires w.caller == ClassNil && Holds(Begin(x), At(u.call.script, n))
    ensures LabShows(u, x, w.events) == RootRun(u, op, n, w, x.retried)
    decreases op.attempts - n, 2, 0
  {
    BeginIsMid(u, x, w, n);
    RunHolds(u, x, w.events);
    HoldAgrees(u, op, Begin(x), Inside(w, ClassNil), At(u.call.script, n), n);
    RootHolds(u, op, n, w, x.retried);
  }

  lemma RootHolds(u: Setup, op: A.Limits, n: nat, w: World, q: int)
    requires w.caller == ClassNil
    requires var b := At(u.call.script, n).block; (b == BlockHold || b == BlockHoldCtx) && !w.released
    ensures var a := At(u.call.script, n); var q1 := if n > 1 then q + 1 else q;
            RootRun(u, op, n, w, q) == match Hold(Inside(w, ClassNil), a.block == BlockHoldCtx)
                                       case Stuck => Seen(false, ClassNil, SUCCESS, 0, false, n, q1)
                                       case Awoken(k, ended) => RootTail(u, op, n, k, a, ended, q1)
  {
  }

  lemma {:induction false} WakingHeadAgrees(u: Setup, op: A.Limits, x: State, w: World, n: nat)
    requires Matches(u, op) && AtHead(u, x, w, n) && n <= op.attempts
    requires w.caller == ClassNil && !Holds(Begin(x), At(u.call.script, n))
    ensures LabShows(u, x, w.events) == RootRun(u, op, n, w, x.retried)
    decreases op.attempts - n, 2, 0
  {
    var a, i := At(u.call.script, n), Inside(w, ClassNil);
    var r := Wait(u, i, a, w.now + op.timeout);
    BeginIsMid(u, x, w, n);
    RunWakes(u, x, w.events);
    WakesAlike(u, op, Begin(x), i, a, n);
    RootWakes(u, op, n, w, x.retried, r);
    TailAgrees(u, op, Awake(u, Begin(x), a), r.i, a, false, n);
  }

  lemma RootWakes(u: Setup, op: A.Limits, n: nat, w: World, q: int, r: Waited)
    requires w.caller == ClassNil && n > 0 && n <= op.attempts
    requires r == Wait(u, Inside(w, ClassNil), At(u.call.script, n), w.now + op.timeout) && r.Awoken? && !r.ended
    ensures RootRun(u, op, n, w, q)
         == RootTail(u, op, n, r.i, At(u.call.script, n), false, if n > 1 then q + 1 else q)
  {
  }

  lemma WakesAlike(u: Setup, op: A.Limits, y: State, i: Inside, a: Attempt, n: nat)
    requires Matches(u, op) && Mid(u, y, i, n) && i.att == ClassNil && i.w.caller == ClassNil && y.attStart == y.now
    requires a == At(u.call.script, n) && !Holds(y, a)
    ensures var r := Wait(u, i, a, i.w.now + op.timeout);
            r.Awoken? && !r.ended && Mid(u, Awake(u, y, a), r.i, n) && r.i.w.events == i.w.events
  {
    var ownAt := y.attStart + u.op.timeout;
    match a.block
    case BlockSleep => AdvanceKeepsMid(u, y, i, n, y.now + a.sleep);
    case BlockDeadline => AdvanceKeepsMid(u, y, i, n, DeadlineEnd(u, y));
    case _ =>
  }

  /** The world a call starts in. */
  function Start(u: Setup, events: seq<Event>): World {
    World(0, if u.call.precancel then ClassCanceled else ClassNil, false, events)
  }

  /** Every world plays to an end. */
  lemma {:induction false} SomeTurnsPlay(u: Setup, op: A.Limits, n: nat, w: World) returns (turns: seq<A.Turn>)
    ensures Plays(u, op, n, w, turns)
    decreases if n <= op.attempts then op.attempts + 1 - n else 0
  {
    if w.caller != ClassNil {
      turns := [A.Turn(Some(CtxErr(w.caller)), A.NotYet, false)];
    } else {
      var a := At(u.call.script, n);
      match Wait(u, Inside(w, ClassNil), a, w.now + op.timeout) {
        case Stuck => turns := [A.Turn(None, A.NotYet, false)];
        case Awoken(i, ended) =>
          var (j, out) := AfterWait(u, i, a, ended);
          var rest := [];
          if Again(op, n, j, out) {
            rest := SomeTurnsPlay(u, op, n + 1, j.w);
          }
          turns := [A.Turn(None, out, Expired(op, j, out))] + rest;
          assert turns[1..] == rest;
      }
    }
  }

  /** For every script, timeout, caller deadline, cancellation and order of
      outside events, the runtime's loop returns the class, outcome and value
      the model predicts, after the same handler calls and retries. */
  lemma RootRunsLikeExec(u: Setup, op: A.Limits, events: seq<Event>, turns: seq<A.Turn>)
    requires Matches(u, op) && Plays(u, op, 1, Start(u, events), turns)
    ensures LabSees(Drive(u, AfterRun(u, New(u)), events)) == RootSees(A.Loop(op, turns, A.START))
  {
    HeadAgrees(u, op, New(u), Start(u, events), 1);
    RootRunIsLoop(u, op, Start(u, events), turns, A.START);
  }

  /** A validated operation built from the lab's description is such a match. */
  lemma BuiltMatches(u: Setup, p: V.Policy, op: V.Operation, sizes: map<string, int>)
    requires V.Built(op, p, sizes) && u.fixed && WellScripted(u)
    requires p.timeout == u.op.timeout && p.maxAttempts == u.op.maxAttempts && p.effect == u.op.effect
    requires forall o :: V.Wanted(p.on, o) <==> o in u.op.on
    ensures Matches(u, A.LimitsOf(op))
  {
  }
}
