/** The attempt loop of Do against any handler, and what it may repeat. */
module Attempts {
  import opened Outcomes
  import opened Validate

  /** What the loop reads of an operation, its retry bits as a set. */
  datatype Limits = Limits(attempts: nat, timeout: nat, again: set<int>)

  function LimitsOf(op: Operation): (l: Limits)
    ensures forall o :: o in l.again <==> Has(op.retry, o)
  {
    Limits(op.attempts, op.timeout, set o | 0 <= o < 8 && Has(op.retry, o))
  }

  datatype Out = Value(v: int) | Error(err: Err) | Panic | NotYet

  /** What one turn of the loop meets: the caller's context error before the
      attempt, the handler's result, and whether the attempt's own deadline
      fired while the caller was still live. */
  datatype Turn = Turn(ended: Option<Err>, out: Out, expired: bool)

  datatype End = Running | InHandler | Returned(v: int) | Failing(err: Err) | Panicked

  /** One verdict per attempt that returned, the counters, and the result. */
  datatype Trace = Trace(verdicts: seq<int>, started: nat, retried: nat, end: End)

  const START := Trace([], 0, 0, Running)

  /** Attempts begun. */
  function Begun(t: Trace): nat {
    t.started + t.retried
  }

  /** None to go round again, or the error to return after attempt n. */
  function AfterFailure(op: Limits, n: nat, err: Err, expired: bool): Option<Err> {
    var (o, promoted) := Classify(err, expired);
    if n >= op.attempts || o !in op.again then Some(Failed(err, promoted)) else None
  }

  /** The counter bumped as the next attempt begins. */
  function Count(t: Trace): Trace {
    if Begun(t) == 0 then t.(started := t.started + 1) else t.(retried := t.retried + 1)
  }

  function Judge(t: Trace, o: int): Trace {
    t.(verdicts := t.verdicts + [o])
  }

  /** The loop carried on from trace t; it stops where the turns run out. */
  function Loop(op: Limits, turns: seq<Turn>, t: Trace): Trace
    decreases |turns|
  {
    if turns == [] then t
    else if turns[0].ended.Some? then t.(end := Failing(turns[0].ended.value))
    else
      var c := Count(t);
      match turns[0].out
      case NotYet => c.(end := InHandler)
      case Panic => c.(end := Panicked)
      case Value(v) => Judge(c, SUCCESS).(end := Returned(v))
      case Error(err) =>
        var stop := AfterFailure(op, Begun(c), err, turns[0].expired);
        var d := Judge(c, Classify(err, turns[0].expired).0);
        if stop.Some? then d.(end := Failing(stop.value)) else Loop(op, turns[1..], d)
  }

  /** run: the loop as written, a turn at a time. */
  method Run(op: Operation, turns: seq<Turn>) returns (t: Trace)
    ensures t == Loop(LimitsOf(op), turns, START)
  {
    ghost var l := LimitsOf(op);
    t := START;
    var n: nat := 1;
    while n <= |turns|
      invariant 1 <= n <= |turns| + 1 && Begun(t) == n - 1
      invariant Loop(l, turns[n - 1..], t) == Loop(l, turns, START)
    {
      var turn := turns[n - 1];
      assert turns[n - 1..][1..] == turns[n..];
      if turn.ended.Some? {
        return t.(end := Failing(turn.ended.value));
      }
      if n == 1 {
        t := t.(started := t.started + 1);
      } else {
        t := t.(retried := t.retried + 1);
      }
      match turn.out {
        case NotYet => return t.(end := InHandler);
        case Panic => return t.(end := Panicked);
        case Value(v) => return t.(verdicts := t.verdicts + [SUCCESS], end := Returned(v));
        case Error(err) =>
          var (o, promoted) := Classify(err, turn.expired);
          t := t.(verdicts := t.verdicts + [o]);
          if n >= op.attempts || !Has(op.retry, o) {
            return t.(end := Failing(Failed(err, promoted)));
          }
      }
      n := n + 1;
    }
  }

  // ---------- what a trace can look like ----------

  /** The first k attempts of a call all failed and were repeated. */
  predicate Repeated(op: Limits, turns: seq<Turn>, t: Trace, k: nat) {
    && k == Begun(t) == |t.verdicts| <= |turns|
    && t.started == (if k > 0 then 1 else 0)
    && (k > 0 ==> k < op.attempts)
    && (forall i :: 0 <= i < k ==> turns[i].ended.None? && t.verdicts[i] in op.again)
  }

  predicate Bounded(op: Limits, turns: seq<Turn>, t: Trace) {
    && Begun(t) <= |turns|
    && |t.verdicts| == (if t.end.Panicked? || t.end.InHandler? then Begun(t) - 1 else Begun(t))
    && Begun(t) <= Max(op.attempts, 1)
    && (forall i :: 0 <= i < Begun(t) ==> turns[i].ended.None?)
    && (forall i :: 0 <= i < Begun(t) - 1 ==> t.verdicts[i] in op.again)
    && t.started == (if Begun(t) > 0 then 1 else 0)
  }

  /** The last verdict is what the returned error says. */
  predicate Honest(turns: seq<Turn>, t: Trace) {
    match t.end
    case Returned(v) => t.verdicts != [] && t.verdicts[|t.verdicts| - 1] == SUCCESS && 0 < Begun(t) <= |turns|
                        && turns[Begun(t) - 1].out == Value(v)
    case Failing(err) =>
      || (Begun(t) < |turns| && turns[Begun(t)].ended == Some(err))
      || (t.verdicts != [] && t.verdicts[|t.verdicts| - 1] == OutcomeOf(Some(err)))
    case Panicked => 0 < Begun(t) <= |turns| && turns[Begun(t) - 1].out == Panic
    case InHandler => 0 < Begun(t) <= |turns| && turns[Begun(t) - 1].out == NotYet
    case Running => Begun(t) == |turns|
  }

  lemma {:induction false} LoopKeepsItsWord(op: Limits, turns: seq<Turn>, t: Trace, k: nat)
    requires Repeated(op, turns, t, k) && t.end == Running
    ensures Bounded(op, turns, Loop(op, turns[k..], t)) && Honest(turns, Loop(op, turns[k..], t))
    decreases |turns| - k
  {
    if k < |turns| && turns[k].ended.None? && turns[k].out.Error? {
      var err, expired := turns[k].out.err, turns[k].expired;
      VerdictIsReported(err, expired);
      var d := Judge(Count(t), Classify(err, expired).0);
      if AfterFailure(op, k + 1, err, expired) == None {
        LoopKeepsItsWord(op, turns, d, k + 1);
        assert turns[k..][1..] == turns[k + 1..];
      }
    }
  }

  /** Retry safety over whole traces, for every handler and every caller: at
      most max(MaxAttempts, 1) attempts, none begun after the caller's context
      ended, and an attempt is repeated only if its outcome was requested and
      is safe for the effect; the error returned tells the deciding verdict. */
  lemma RetriesAreSafe(op: Operation, p: Policy, sizes: map<string, int>, turns: seq<Turn>)
    requires Built(op, p, sizes)
    ensures var t := Loop(LimitsOf(op), turns, START);
            && Begun(t) <= Max(p.maxAttempts, 1) && Begun(t) <= |turns|
            && (forall i :: 0 <= i < Begun(t) ==> turns[i].ended.None?)
            && (forall i :: 0 <= i < Begun(t) - 1 ==>
                  i < |t.verdicts| && Wanted(p.on, t.verdicts[i]) && Safe(p.effect, t.verdicts[i])
                  && (p.effect == NonIdempotent ==> t.verdicts[i] == TRANSIENT))
            && Honest(turns, t)
  {
    assert turns[0..] == turns;
    LoopKeepsItsWord(LimitsOf(op), turns, START, 0);
  }
}
