/** What construction guarantees: budgets, claims and retry tables are checked
    before any call, and the lab's predictions match. */
module Validate {
  import opened Names
  import opened Claims
  import opened Outcomes

  datatype Spec = Spec(name: string, capacity: int)
  datatype Req = Req(name: string, units: int)

  datatype Policy = Policy(effect: Effect, resources: seq<Req>, reject: bool, timeout: int, maxAttempts: int,
                           on: map<int, bool>)

  datatype Error =
    | NoResources | EmptyName | BadCapacity(name: string) | DuplicateSpec(name: string)
    | NoHandler | NoName | EffectRequired | InvalidEffect(code: int)
    | Twice(name: string) | Unknown(name: string) | NotPositive(name: string) | TooMany(name: string)
    | InvalidRetry(outcome: int) | UnsafeRetry

  datatype Result<T> = Ok(value: T) | Err(error: Error)

  // ---------- budgets ----------

  /** What is wrong with spec i, given the ones before it. */
  function SpecFault(specs: seq<Spec>, i: nat): Option<Error>
    requires i < |specs|
  {
    var s := specs[i];
    if s.name == "" then Some(EmptyName)
    else if s.capacity <= 0 then Some(BadCapacity(s.name))
    else if exists j :: 0 <= j < i && specs[j].name == s.name then Some(DuplicateSpec(s.name))
    else None
  }

  predicate SpecsOk(specs: seq<Spec>) {
    specs != [] && forall i :: 0 <= i < |specs| ==> SpecFault(specs, i) == None
  }

  method ValidateSpecs(specs: seq<Spec>) returns (r: Option<Error>)
    ensures r == None <==> SpecsOk(specs)
    ensures specs == [] ==> r == Some(NoResources)
    ensures r != None && specs != [] ==>
              exists i :: 0 <= i < |specs| && r == SpecFault(specs, i)
                          && forall j :: 0 <= j < i ==> SpecFault(specs, j) == None
  {
    if |specs| == 0 {
      return Some(NoResources);
    }
    var seen := {};
    for i := 0 to |specs|
      invariant forall n :: n in seen <==> exists j :: 0 <= j < i && specs[j].name == n
      invariant forall j :: 0 <= j < i ==> SpecFault(specs, j) == None
    {
      var s := specs[i];
      ghost var fault := SpecFault(specs, i);
      if s.name == "" {
        return Some(EmptyName);
      }
      if s.capacity <= 0 {
        return Some(BadCapacity(s.name));
      }
      if s.name in seen {
        return Some(DuplicateSpec(s.name));
      }
      seen := seen + {s.name};
    }
    return None;
  }

  // ---------- claims ----------

  /** What is wrong with requirement i, given the ones before it. */
  function ReqFault(reqs: seq<Req>, i: nat, sizes: map<string, int>): Option<Error>
    requires i < |reqs|
  {
    var q := reqs[i];
    if exists j :: 0 <= j < i && reqs[j].name == q.name then Some(Twice(q.name))
    else if q.name !in sizes then Some(Unknown(q.name))
    else if q.units <= 0 then Some(NotPositive(q.name))
    else if q.units > sizes[q.name] then Some(TooMany(q.name))
    else None
  }

  predicate ReqsOk(reqs: seq<Req>, sizes: map<string, int>) {
    forall i :: 0 <= i < |reqs| ==> ReqFault(reqs, i, sizes) == None
  }

  /** Claims as requested, before sorting. */
  predicate Resolves(reqs: seq<Req>, claims: seq<Claim>) {
    |claims| == |reqs| && forall i :: 0 <= i < |reqs| ==> claims[i] == Claim(reqs[i].name, reqs[i].units)
  }

  method ResolveClaims(reqs: seq<Req>, sizes: map<string, int>) returns (r: Result<seq<Claim>>)
    ensures r.Ok? <==> ReqsOk(reqs, sizes)
    ensures r.Ok? ==> Resolves(reqs, r.value)
    ensures r.Err? ==> exists i :: 0 <= i < |reqs| && Some(r.error) == ReqFault(reqs, i, sizes)
                                   && forall j :: 0 <= j < i ==> ReqFault(reqs, j, sizes) == None
  {
    var claims, seen := [], {};
    for i := 0 to |reqs|
      invariant forall n :: n in seen <==> exists j :: 0 <= j < i && reqs[j].name == n
      invariant forall j :: 0 <= j < i ==> ReqFault(reqs, j, sizes) == None
      invariant Resolves(reqs[..i], claims)
    {
      var q := reqs[i];
      ghost var fault := ReqFault(reqs, i, sizes);
      if q.name in seen {
        return Err(Twice(q.name));
      }
      seen := seen + {q.name};
      if q.name !in sizes {
        return Err(Unknown(q.name));
      }
      if q.units <= 0 {
        return Err(NotPositive(q.name));
      }
      if q.units > sizes[q.name] {
        return Err(TooMany(q.name));
      }
      claims := claims + [Claim(q.name, q.units)];
    }
    return Ok(claims);
  }

  /** slices.SortFunc by name. */
  function ByName(cs: seq<Claim>): seq<Claim> {
    if cs == [] then [] else Insert(cs[0], ByName(cs[1..]))
  }

  function Insert(c: Claim, cs: seq<Claim>): seq<Claim> {
    if cs == [] || !Before(cs[0].r, c.r) then [c] + cs else [cs[0]] + Insert(c, cs[1..])
  }

  lemma AscendsFrom(c: Claim, cs: seq<Claim>)
    requires Ascending(cs) && forall i :: 0 <= i < |cs| ==> Before(c.r, cs[i].r)
    ensures Ascending([c] + cs)
  {
  }

  lemma {:induction false} InsertAscends(c: Claim, cs: seq<Claim>)
    requires Ascending(cs) && forall i :: 0 <= i < |cs| ==> cs[i].r != c.r
    ensures Ascending(Insert(c, cs))
    ensures multiset(Insert(c, cs)) == multiset(cs) + multiset{c}
  {
    if cs == [] {
    } else if !Before(cs[0].r, c.r) {
      BeforeTotal(cs[0].r, c.r);
      forall i | 0 <= i < |cs|
        ensures Before(c.r, cs[i].r)
      {
        if i > 0 {
          BeforeTransitive(c.r, cs[0].r, cs[i].r);
        }
      }
      AscendsFrom(c, cs);
    } else {
      InsertAscends(c, cs[1..]);
      var t := Insert(c, cs[1..]);
      assert cs == [cs[0]] + cs[1..];
      forall i | 0 <= i < |t|
        ensures Before(cs[0].r, t[i].r)
      {
        assert t[i] in multiset(t);
        assert t[i] == c || t[i] in cs[1..];
      }
      AscendsFrom(cs[0], t);
    }
  }

  /** Distinct names, once sorted, ascend strictly: the one acquisition order. */
  lemma {:induction false} SortedClaimsAscend(cs: seq<Claim>)
    requires forall i, j :: 0 <= i < j < |cs| ==> cs[i].r != cs[j].r
    ensures Ascending(ByName(cs)) && multiset(ByName(cs)) == multiset(cs)
  {
    if cs != [] {
      SortedClaimsAscend(cs[1..]);
      assert cs == [cs[0]] + cs[1..];
      forall i | 0 <= i < |ByName(cs[1..])|
        ensures ByName(cs[1..])[i].r != cs[0].r
      {
        assert ByName(cs[1..])[i] in multiset(cs[1..]);
      }
      InsertAscends(cs[0], ByName(cs[1..]));
    }
  }

  // ---------- the retry table ----------

  predicate Wanted(on: map<int, bool>, o: int) {
    o in on && on[o]
  }

  predicate Retryable(o: int) {
    o == TRANSIENT || o == UNCERTAIN
  }

  /** o is the least outcome asked for that is never retryable. */
  ghost predicate LowestInvalid(on: map<int, bool>, o: int) {
    Wanted(on, o) && !Retryable(o) && forall p :: Wanted(on, p) && !Retryable(p) ==> o <= p
  }

  /** One visit of a map: every key, in some order. */
  predicate Visits(order: seq<int>, on: map<int, bool>) {
    (forall i :: 0 <= i < |order| ==> order[i] in on) && (forall o :: o in on ==> o in order)
  }

  /** Whatever the visiting order, the result is the one described by the map. */
  method RetryTable(on: map<int, bool>, order: seq<int>, e: Effect) returns (r: Result<bv8>)
    requires Visits(order, on)
    ensures r.Err? && r.error.InvalidRetry? ==> LowestInvalid(on, r.error.outcome)
    ensures r.Err? && !r.error.InvalidRetry? ==> r.error == UnsafeRetry
    ensures (r.Err? && r.error.InvalidRetry?) <==> exists o :: Wanted(on, o) && !Retryable(o)
    ensures r == Err(UnsafeRetry) <==>
              (forall o :: Wanted(on, o) ==> Retryable(o)) && e == NonIdempotent && Wanted(on, UNCERTAIN)
    ensures r.Ok? ==> forall o :: Has(r.value, o) <==> Wanted(on, o) && Safe(e, o)
  {
    var set0: bv8 := 0;
    var bad: Option<int> := None;
    for i := 0 to |order|
      invariant forall o :: Has(set0, o) <==> o in order[..i] && on[o] && Retryable(o)
      invariant bad == None ==> forall o :: o in order[..i] && on[o] ==> Retryable(o)
      invariant bad.Some? ==> Wanted(on, bad.value) && !Retryable(bad.value)
      invariant bad.Some? ==> forall o :: o in order[..i] && on[o] && !Retryable(o) ==> bad.value <= o
    {
      var o := order[i];
      assert order[..i + 1] == order[..i] + [o];
      if !on[o] {
      } else if Retryable(o) {
        forall p {
          OrAddsOne(set0, o, p);
        }
        set0 := set0 | Bit(o);
      } else if bad == None || o < bad.value {
        bad := Some(o);
      }
    }
    assert order[..|order|] == order;
    if bad.Some? {
      return Err(InvalidRetry(bad.value));
    }
    if e == NonIdempotent && Has(set0, UNCERTAIN) {
      return Err(UnsafeRetry);
    }
    var safe := RetrySafe(e);
    forall p {
      AndMeets(set0, safe, p);
    }
    return Ok(set0 & safe);
  }

  // ---------- construction ----------

  /** An operation's validated snapshot. */
  datatype Operation = Operation(claims: seq<Claim>, reject: bool, timeout: nat, attempts: nat, retry: bv8)

  function Max(a: int, b: int): int {
    if a > b then a else b
  }

  function AsClaims(reqs: seq<Req>): seq<Claim> {
    seq(|reqs|, i requires 0 <= i < |reqs| => Claim(reqs[i].name, reqs[i].units))
  }

  /** What the rest of the model relies on. */
  ghost predicate Built(op: Operation, p: Policy, sizes: map<string, int>) {
    && Ascending(op.claims)
    && multiset(op.claims) == multiset(AsClaims(p.resources))
    && (forall i :: 0 <= i < |op.claims| ==> op.claims[i].r in sizes && 0 < op.claims[i].n <= sizes[op.claims[i].r])
    && op.reject == p.reject
    && op.timeout == Max(p.timeout, 0) && op.attempts == Max(p.maxAttempts, 1)
    && (forall o :: Has(op.retry, o) <==> Wanted(p.on, o) && Safe(p.effect, o))
  }

  lemma ClaimsAreSound(reqs: seq<Req>, claims: seq<Claim>, sizes: map<string, int>)
    requires ReqsOk(reqs, sizes) && Resolves(reqs, claims)
    ensures Ascending(ByName(claims)) && multiset(ByName(claims)) == multiset(claims)
    ensures forall i :: 0 <= i < |ByName(claims)| ==>
              var c := ByName(claims)[i]; c.r in sizes && 0 < c.n <= sizes[c.r]
    ensures claims == AsClaims(reqs)
  {
    forall i, j | 0 <= i < j < |claims|
      ensures claims[i].r != claims[j].r
    {
      assert ReqFault(reqs, j, sizes) == None;
    }
    SortedClaimsAscend(claims);
    forall i | 0 <= i < |ByName(claims)|
      ensures var c := ByName(claims)[i]; c.r in sizes && 0 < c.n <= sizes[c.r]
    {
      assert ByName(claims)[i] in multiset(ByName(claims));
      ClaimIsSound(reqs, claims, sizes, ByName(claims)[i]);
    }
  }

  lemma ClaimIsSound(reqs: seq<Req>, claims: seq<Claim>, sizes: map<string, int>, c: Claim)
    requires ReqsOk(reqs, sizes) && Resolves(reqs, claims) && c in claims
    ensures c.r in sizes && 0 < c.n <= sizes[c.r]
  {
    var k :| 0 <= k < |claims| && claims[k] == c;
    assert ReqFault(reqs, k, sizes) == None;
  }

  lemma BuiltFrom(op: Operation, p: Policy, sizes: map<string, int>, claims: seq<Claim>)
    requires ReqsOk(p.resources, sizes) && Resolves(p.resources, claims)
    requires op == Operation(ByName(claims), p.reject, Max(p.timeout, 0), Max(p.maxAttempts, 1), op.retry)
    requires forall o :: Has(op.retry, o) <==> Wanted(p.on, o) && Safe(p.effect, o)
    ensures Built(op, p, sizes)
  {
    ClaimsAreSound(p.resources, claims, sizes);
  }

  /** The lab's classes of construction error. */
  datatype Class = Nil | Other | NeedsEffect | BadEffect | BadRetry | Unsafe

  function ClassOf(e: Error): Class {
    match e
    case EffectRequired => NeedsEffect
    case InvalidEffect(_) => BadEffect
    case InvalidRetry(_) => BadRetry
    case UnsafeRetry => Unsafe
    case _ => Other
  }

  /** The lab's prediction of NewOperation's error. */
  ghost function Predicted(sizes: map<string, int>, name: string, p: Policy, hasHandler: bool): Class {
    if !hasHandler || name == "" then Other
    else if p.effect == EffectUnknown then NeedsEffect
    else if p.effect.OtherEffect? then BadEffect
    else if !ReqsOk(p.resources, sizes) then Other
    else if exists o :: Wanted(p.on, o) && !Retryable(o) then BadRetry
    else if p.effect == NonIdempotent && Wanted(p.on, UNCERTAIN) then Unsafe
    else Nil
  }

  method NewOperation(sizes: map<string, int>, name: string, hasHandler: bool, p: Policy, order: seq<int>)
    returns (r: Result<Operation>)
    requires Visits(order, p.on)
    ensures r.Ok? <==> Predicted(sizes, name, p, hasHandler) == Nil
    ensures r.Err? ==> ClassOf(r.error) == Predicted(sizes, name, p, hasHandler)
    ensures r.Ok? ==> Built(r.value, p, sizes)
  {
    if !hasHandler {
      return Err(NoHandler);
    }
    if name == "" {
      return Err(NoName);
    }
    if p.effect == EffectUnknown {
      return Err(EffectRequired);
    }
    if p.effect.OtherEffect? {
      return Err(InvalidEffect(p.effect.code));
    }
    var claims := ResolveClaims(p.resources, sizes);
    if claims.Err? {
      return Err(claims.error);
    }
    var retry := RetryTable(p.on, order, p.effect);
    if retry.Err? {
      return Err(retry.error);
    }
    var op := Operation(ByName(claims.value), p.reject, Max(p.timeout, 0), Max(p.maxAttempts, 1), retry.value);
    BuiltFrom(op, p, sizes, claims.value);
    return Ok(op);
  }

  /** The lab's own predictor, check by check. */
  method Validate(sizes: map<string, int>, name: string, p: Policy, nilHandler: bool, order: seq<int>)
    returns (c: Class)
    requires Visits(order, p.on)
    ensures c == Predicted(sizes, name, p, !nilHandler)
  {
    if nilHandler || name == "" {
      return Other;
    }
    match p.effect {
      case EffectUnknown => return NeedsEffect;
      case OtherEffect(_) => return BadEffect;
      case _ =>
    }
    var seen := {};
    for i := 0 to |p.resources|
      invariant forall n :: n in seen <==> exists j :: 0 <= j < i && p.resources[j].name == n
      invariant forall j :: 0 <= j < i ==> ReqFault(p.resources, j, sizes) == None
    {
      var q := p.resources[i];
      ghost var fault := ReqFault(p.resources, i, sizes);
      if q.name in seen || q.name !in sizes || q.units <= 0 || q.units > sizes[q.name] {
        return Other;
      }
      seen := seen + {q.name};
    }
    for i := 0 to |order|
      invariant forall o :: o in order[..i] && p.on[o] ==> Retryable(o)
    {
      var o := order[i];
      assert order[..i + 1] == order[..i] + [o];
      if p.on[o] && o != TRANSIENT && o != UNCERTAIN {
        assert Wanted(p.on, o) && !Retryable(o);
        return BadRetry;
      }
    }
    assert order[..|order|] == order;
    if p.effect == NonIdempotent && UNCERTAIN in p.on && p.on[UNCERTAIN] {
      return Unsafe;
    }
    return Nil;
  }
}
