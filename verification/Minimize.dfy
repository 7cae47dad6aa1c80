/** Greedy shrinking of a failing scenario to a 1-minimal one. */
module Minimizer {
  import opened Sequences
  import opened Systems

  /** Drops the steps of a call. */
  function WithoutCall(steps: seq<Step>, call: nat): seq<Step> {
    if steps == [] then []
    else if steps[0].kind != StepShutdown && steps[0].call == call then WithoutCall(steps[1..], call)
    else [steps[0]] + WithoutCall(steps[1..], call)
  }

  /** Drops step i; dropping a Start also drops the call's other steps. */
  function WithoutStep(steps: seq<Step>, i: nat): seq<Step>
    requires i < |steps|
  {
    var out := Without(steps, i);
    if steps[i].kind == StepStart then WithoutCall(out, steps[i].call) else out
  }

  /** a's steps are among b's, in b's order. */
  predicate Within(a: seq<Step>, b: seq<Step>)
    decreases |b|
  {
    if a == [] then true
    else if b == [] then false
    else if a[0] == b[0] then Within(a[1..], b[1..])
    else Within(a, b[1..])
  }

  lemma {:induction false} WithinLonger(a: seq<Step>, b: seq<Step>)
    requires b != [] && Within(a, b[1..])
    ensures Within(a, b)
    decreases |b|, 0
  {
    if a != [] && a[0] == b[0] {
      WithinTail(a, b[1..]);
    }
  }

  lemma {:induction false} WithinTail(a: seq<Step>, b: seq<Step>)
    requires a != [] && Within(a, b)
    ensures Within(a[1..], b)
    decreases |b|, 1
  {
    if a[0] == b[0] {
      WithinLonger(a[1..], b);
    } else {
      WithinTail(a, b[1..]);
      WithinLonger(a[1..], b);
    }
  }

  lemma {:induction false} WithinItself(a: seq<Step>)
    ensures Within(a, a)
  {
    if a != [] {
      WithinItself(a[1..]);
    }
  }

  lemma {:induction false} WithinChains(a: seq<Step>, b: seq<Step>, c: seq<Step>)
    requires Within(a, b) && Within(b, c)
    ensures Within(a, c)
    decreases |c|, |b|
  {
    if a != [] && b != [] && c != [] {
      if b[0] != c[0] {
        WithinChains(a, b, c[1..]);
        WithinLonger(a, c);
      } else if a[0] == b[0] {
        WithinChains(a[1..], b[1..], c[1..]);
      } else {
        WithinChains(a, b[1..], c[1..]);
        WithinLonger(a, c);
      }
    }
  }

  lemma {:induction false} WithoutCallShrinks(steps: seq<Step>, call: nat)
    ensures |WithoutCall(steps, call)| <= |steps| && Within(WithoutCall(steps, call), steps)
  {
    if steps != [] {
      WithoutCallShrinks(steps[1..], call);
      if steps[0].kind != StepShutdown && steps[0].call == call {
        WithinLonger(WithoutCall(steps[1..], call), steps);
      }
    }
  }

  lemma {:induction false} WithoutIsWithin(steps: seq<Step>, i: nat)
    requires i < |steps|
    ensures Within(Without(steps, i), steps)
  {
    if i == 0 {
      WithinItself(steps[1..]);
      WithinLonger(steps[1..], steps);
      assert Without(steps, 0) == steps[1..];
    } else {
      WithoutIsWithin(steps[1..], i - 1);
      assert Without(steps, i) == [steps[0]] + Without(steps[1..], i - 1);
    }
  }

  lemma WithoutStepShrinks(steps: seq<Step>, i: nat)
    requires i < |steps|
    ensures |WithoutStep(steps, i)| < |steps| && Within(WithoutStep(steps, i), steps)
  {
    WithoutIsWithin(steps, i);
    WithoutCallShrinks(Without(steps, i), steps[i].call);
    WithinChains(WithoutCall(Without(steps, i), steps[i].call), Without(steps, i), steps);
  }

  /** Replays cleanly under both rule sets and still fails. */
  predicate Interesting(steps: seq<Step>, check: (bool, seq<Step>) -> bool, fails: seq<Step> -> bool) {
    check(false, steps) && check(true, steps) && fails(steps)
  }

  predicate OneMinimal(steps: seq<Step>, check: (bool, seq<Step>) -> bool, fails: seq<Step> -> bool) {
    forall i :: 0 <= i < |steps| ==> !Interesting(WithoutStep(steps, i), check, fails)
  }

  /** Terminates, keeps a valid failing scenario valid and failing, only drops
      steps, and leaves none that could still be dropped. */
  method Minimize(steps: seq<Step>, check: (bool, seq<Step>) -> bool, fails: seq<Step> -> bool) returns (sc: seq<Step>)
    ensures sc == steps || Interesting(sc, check, fails)
    ensures Interesting(steps, check, fails) ==> Interesting(sc, check, fails)
    ensures Within(sc, steps)
    ensures OneMinimal(sc, check, fails)
  {
    sc := steps;
    WithinItself(steps);
    var changed := true;
    while changed
      invariant sc == steps || Interesting(sc, check, fails)
      invariant Within(sc, steps)
      invariant !changed ==> OneMinimal(sc, check, fails)
      decreases |sc|, changed
    {
      changed := false;
      var before := sc;
      var i := |sc| - 1;
      while i >= 0
        invariant -1 <= i < |sc|
        invariant sc == steps || Interesting(sc, check, fails)
        invariant Within(sc, steps)
        invariant if changed then |sc| < |before| else sc == before
        invariant !changed ==> forall j :: i < j < |sc| ==> !Interesting(WithoutStep(sc, j), check, fails)
        decreases i
      {
        WithoutStepShrinks(sc, i);
        var cand := WithoutStep(sc, i);
        if check(false, cand) && check(true, cand) && fails(cand) {
          WithinChains(cand, sc, steps);
          sc, changed := cand, true;
          i := if i < |sc| then i else |sc|;
        }
        i := i - 1;
      }
    }
  }
}
