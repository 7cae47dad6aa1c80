/** Error trees, the classifier, and the retry bit set. */
module Outcomes {

  const SUCCESS: int := 0
  const TRANSIENT: int := 1
  const PERMANENT: int := 2
  const THROTTLED: int := 3
  const UNCERTAIN: int := 4

  datatype Option<T> = None | Some(value: T)

  /** A Go error: leaves, wrappers with Unwrap() error, joins with
      Unwrap() []error, and *Failure, which may be a nil pointer. */
  datatype Err =
    | Canceled
    | DeadlineExceeded
    | Leaf(id: int)
    | Failure(outcome: int, inner: Option<Err>)
    | NilFailure
    | Wrap(err: Err)
    | Join(errs: seq<Err>)

  /** What errors.AsType finds: a *Failure node, nil (None) or not. */
  type Found = Option<Option<int>>

  /** errors.AsType[*Failure]: depth-first, each node before its children. */
  function First(e: Err): Found
    decreases e
  {
    match e
    case Failure(o, _) => Some(Some(o))
    case NilFailure => Some(None)
    case Wrap(x) => First(x)
    case Join(xs) => FirstOf(xs)
    case _ => None
  }

  function FirstOf(xs: seq<Err>): Found
    decreases xs
  {
    if xs == [] then None
    else if First(xs[0]).Some? then First(xs[0])
    else FirstOf(xs[1..])
  }

  function Tagged(e: Err): Option<int> {
    match First(e)
    case Some(Some(o)) => Some(o)
    case _ => None
  }

  /** errors.Is(e, target) for a leaf target. */
  predicate Is(e: Err, target: Err)
    decreases e
  {
    e == target ||
    match e
    case Failure(_, Some(x)) => Is(x, target)
    case Wrap(x) => Is(x, target)
    case Join(xs) => exists i :: 0 <= i < |xs| && Is(xs[i], target)
    case _ => false
  }

  function Normalize(o: int): int {
    if o == TRANSIENT || o == PERMANENT || o == THROTTLED || o == UNCERTAIN then o else PERMANENT
  }

  function Fail(o: int, err: Option<Err>): Option<Err> {
    if err.None? || Tagged(err.value).Some? then err
    else Some(Failure(Normalize(o), err))
  }

  function OutcomeOf(err: Option<Err>): int {
    if err.None? then SUCCESS
    else if Tagged(err.value).Some? then Tagged(err.value).value
    else PERMANENT
  }

  /** The verdict on a failed attempt, and whether to report it as Uncertain. */
  function Classify(err: Err, expired: bool): (int, bool) {
    if Tagged(err).Some? then (Tagged(err).value, false)
    else if expired && !Is(err, Canceled) then (UNCERTAIN, true)
    else (PERMANENT, false)
  }

  /** The error of a call whose last attempt failed. */
  function Failed(err: Err, promoted: bool): Err {
    if promoted then Failure(UNCERTAIN, Some(err)) else err
  }

  // ---------- the classifier ----------

  /** Every *Failure in the tree, in the order of a full traversal. */
  function Failures(e: Err): seq<Option<int>>
    decreases e
  {
    match e
    case Failure(o, None) => [Some(o)]
    case Failure(o, Some(x)) => [Some(o)] + Failures(x)
    case NilFailure => [None]
    case Wrap(x) => Failures(x)
    case Join(xs) => FailuresOf(xs)
    case _ => []
  }

  function FailuresOf(xs: seq<Err>): seq<Option<int>>
    decreases xs
  {
    if xs == [] then [] else Failures(xs[0]) + FailuresOf(xs[1..])
  }

  lemma {:induction false} FirstHeadsFailures(e: Err)
    ensures First(e) == if Failures(e) == [] then None else Some(Failures(e)[0])
    decreases e
  {
    match e
    case Wrap(x) => FirstHeadsFailures(x);
    case Join(xs) => FirstOfHeadsFailures(xs);
    case _ =>
  }

  lemma {:induction false} FirstOfHeadsFailures(xs: seq<Err>)
    ensures FirstOf(xs) == if FailuresOf(xs) == [] then None else Some(FailuresOf(xs)[0])
    decreases xs
  {
    if xs != [] {
      FirstHeadsFailures(xs[0]);
      FirstOfHeadsFailures(xs[1..]);
    }
  }

  /** An error reads as untagged exactly when it holds no Failure or a nil
      *Failure comes first, which hides every real one behind it. */
  lemma TagIsTheFirstFailure(e: Err)
    ensures Tagged(e).None? <==> Failures(e) == [] || Failures(e)[0] == None
    ensures Tagged(e).Some? ==> Failures(e)[0] == Tagged(e)
  {
    FirstHeadsFailures(e);
  }

  lemma NilFailureHidesAVerdict()
    ensures var e := Join([NilFailure, Failure(TRANSIENT, None)]);
            Some(TRANSIENT) in Failures(e) && OutcomeOf(Some(e)) == PERMANENT
  {
    var xs := [NilFailure, Failure(TRANSIENT, None)];
    assert First(xs[0]) == Some(None);
    assert FirstOf(xs) == Some(None);
    assert xs[1..] == [Failure(TRANSIENT, None)];
    assert FailuresOf([Failure(TRANSIENT, None)]) == [Some(TRANSIENT)] + FailuresOf([]);
    assert FailuresOf(xs) == [None] + FailuresOf(xs[1..]);
    assert FailuresOf(xs)[1] == Some(TRANSIENT);
  }

  /** One verdict drives the retry decision and the error Do returns: reading
      the returned error gives back the verdict, for every error tree. */
  lemma VerdictIsReported(err: Err, expired: bool)
    ensures var (o, promoted) := Classify(err, expired); OutcomeOf(Some(Failed(err, promoted))) == o
  {
  }

  /** A verdict already given is never replaced, and only vouched-for outcomes
      can be given. */
  lemma FirstVerdictWins(o: int, p: int, err: Option<Err>)
    ensures Fail(p, Fail(o, err)) == Fail(o, err)
    ensures err.Some?
            ==> OutcomeOf(Fail(o, err)) == if Tagged(err.value).Some? then Tagged(err.value).value else Normalize(o)
    ensures Fail(o, err) == None <==> err == None
  {
  }

  // ---------- outcome sets ----------

  /** 1 << o, as a byte. */
  function Bit(o: nat): bv8 {
    match o
    case 0 => 1
    case 1 => 2
    case 2 => 4
    case 3 => 8
    case 4 => 16
    case 5 => 32
    case 6 => 64
    case 7 => 128
    case _ => 0
  }

  /** Every out-of-range outcome, negative ones included, is absent. */
  predicate Has(s: bv8, o: int) {
    0 <= o < 8 && s & Bit(o) != 0
  }

  lemma BitsAreSeparate(o: nat, p: nat)
    ensures Bit(o) & Bit(p) != 0 <==> o == p && o < 8
  {
  }

  lemma OrAddsOne(s: bv8, o: nat, p: int)
    ensures Has(s | Bit(o), p) <==> Has(s, p) || (p == o && o < 8)
  {
    if 0 <= p < 8 {
      BitsAreSeparate(o, p);
      assert (s | Bit(o)) & Bit(p) == (s & Bit(p)) | (Bit(o) & Bit(p));
      OrIsZero(s & Bit(p), Bit(o) & Bit(p));
    }
  }

  lemma OrIsZero(a: bv8, b: bv8)
    ensures a | b == 0 <==> a == 0 && b == 0
  {
  }

  lemma AndMeets(s: bv8, t: bv8, p: int)
    ensures Has(s & t, p) <==> Has(s, p) && Has(t, p)
  {
    if 0 <= p < 8 {
      BitOfAnd(s, t, p);
    }
  }

  lemma BitOfAnd(s: bv8, t: bv8, p: nat)
    requires p < 8
    ensures (s & t) & Bit(p) != 0 <==> s & Bit(p) != 0 && t & Bit(p) != 0
  {
  }

  method SetOf(os: seq<nat>) returns (s: bv8)
    ensures forall p :: Has(s, p) <==> p in os && 0 <= p < 8
  {
    s := 0;
    for i := 0 to |os|
      invariant forall p :: Has(s, p) <==> p in os[..i] && 0 <= p < 8
    {
      assert os[..i + 1] == os[..i] + [os[i]];
      forall p {
        OrAddsOne(s, os[i], p);
      }
      s := s | Bit(os[i]);
    }
  }

  // ---------- effects ----------

  datatype Effect = EffectUnknown | Pure | Idempotent | NonIdempotent | OtherEffect(code: int)

  /** Outcomes that may be repeated under e. */
  method RetrySafe(e: Effect) returns (s: bv8)
    ensures forall o :: Has(s, o) <==> Safe(e, o)
  {
    if e == NonIdempotent {
      s := SetOf([TRANSIENT]);
    } else {
      s := SetOf([TRANSIENT, UNCERTAIN]);
    }
  }

  /** The Effect gate: only Transient is repeatable whatever the effect. */
  predicate Safe(e: Effect, o: int) {
    o == TRANSIENT || (o == UNCERTAIN && e != NonIdempotent)
  }
}
