/** The lab's simulator of the runtime: one driving step at a time, each
    finished call waking others, who may finish in turn. */
module Systems {
  import opened Totals
  import opened Claims
  import opened Names
  import opened Sems
  import B = Budgets
  import opened Outcomes
  import opened Cascade
  import opened CascadeKeys
  import K = Keys
  import E = Execs

  // ---------- what a cascade leaves alone ----------

  /** y is x after a cascade that did not set out from x: only a parked call
      still in a queue can have changed, and a call that finished has given
      everything back. When freed, x stopped being granted or moving. */
  ghost predicate KeptOne(x: Stake, y: Stake, freed: bool) {
    && SameOperation(x, y)
    && (!freed && (x.st != Resting || x.call.phase != Parked) ==> y == x)
    && (y.st != Resting ==> !freed && x.st == y.st)
    && (y.call.phase == Done ==> y == x || Closed(y))
    && (x.call.phase == Done ==> y.call.phase == Done)
  }

  ghost predicate KeptBut(s: seq<Stake>, t: seq<Stake>, freed: seq<int>) {
    |t| == |s| && forall i :: 0 <= i < |s| ==> KeptOne(s[i], t[i], i in freed)
  }

  /** The same, seen by a finishing call c, whose own stake is left out. */
  ghost predicate KeptAround(s: seq<Stake>, t: seq<Stake>, c: nat) {
    |t| == |s| && forall i :: 0 <= i < |s| && i != c ==> KeptOne(s[i], t[i], false)
  }

  lemma KeptChains(s: seq<Stake>, t: seq<Stake>, u: seq<Stake>, a: seq<int>, b: seq<int>)
    requires KeptBut(s, t, a) && KeptBut(t, u, b)
    ensures KeptBut(s, u, a + b)
  {
    forall i | 0 <= i < |s|
      ensures KeptOne(s[i], u[i], i in a + b)
    {
      assert KeptOne(s[i], t[i], i in a) && KeptOne(t[i], u[i], i in b);
    }
  }

  lemma AroundChains(s: seq<Stake>, t: seq<Stake>, u: seq<Stake>, c: nat)
    requires KeptAround(s, t, c) && KeptAround(t, u, c)
    ensures KeptAround(s, u, c)
  {
    forall i | 0 <= i < |s| && i != c
      ensures KeptOne(s[i], u[i], false)
    {
      assert KeptOne(s[i], t[i], false) && KeptOne(t[i], u[i], false);
    }
  }

  /** Call c was granted and its handler has not run yet. */
  predicate ToWake(s: seq<Stake>, c: int) {
    0 <= c < |s| && s[c].st == Granted && !WaitsKey(s[c].call)
  }

  predicate AllToWake(s: seq<Stake>, ids: seq<int>) {
    && (forall j :: 0 <= j < |ids| ==> ToWake(s, ids[j]))
    && (forall i, j :: 0 <= i < j < |ids| ==> ids[i] != ids[j])
  }

  lemma NotYetWoken(s: seq<Stake>, t: seq<Stake>, ids: seq<int>, j: nat)
    requires j < |ids| && KeptBut(s, t, ids[..j]) && AllToWake(s, ids)
    ensures ToWake(t, ids[j]) && t[ids[j]] == s[ids[j]]
  {
    assert ToWake(s, ids[j]) && KeptOne(s[ids[j]], t[ids[j]], ids[j] in ids[..j]);
  }

  lemma OneMoreWoken(s: seq<Stake>, t: seq<Stake>, u: seq<Stake>, ids: seq<int>, j: nat)
    requires j < |ids| && KeptBut(s, t, ids[..j]) && KeptBut(t, u, [ids[j]])
    ensures KeptBut(s, u, ids[..j + 1]) && Live(u) <= Live(t)
  {
    KeptChains(s, t, u, ids[..j], [ids[j]]);
    assert ids[..j] + [ids[j]] == ids[..j + 1];
    KeptLives(t, u, [ids[j]]);
  }

  /** The driven call moved first; whatever followed was kept. */
  lemma MoveThenKept(s: seq<Stake>, c: nat, x: Stake, u: seq<Stake>)
    requires c < |s| && SameOperation(s[c], x) && s[c].call.phase != Done && x.call.phase != Done
    requires KeptBut(s[c := x], u, [c])
    ensures KeptBut(s, u, [c])
  {
    forall i | 0 <= i < |s|
      ensures KeptOne(s[i], u[i], i in [c])
    {
      assert KeptOne(s[c := x][i], u[i], i in [c]);
    }
  }

  /** The driven call came to rest. */
  lemma RestKeeps(s: seq<Stake>, c: nat, x: Stake)
    requires c < |s| && SameOperation(s[c], x) && s[c].call.phase != Done && x.call.phase != Done && x.st == Resting
    ensures KeptBut(s, s[c := x], [c])
  {
  }

  /** Some waiters were granted, then all of them were woken. */
  lemma GrantsThenWakes(w: World, v: World, u: seq<Stake>, c: nat, ids: seq<int>)
    requires Reported(w, v, ids) && KeptBut(v.stakes, u, ids)
    requires c < |w.stakes| && !Queued(w.stakes[c])
    ensures KeptAround(w.stakes, u, c)
    ensures w.stakes[c].call.phase == Done || w.stakes[c].st != Resting ==> u[c] == w.stakes[c]
  {
    forall i | 0 <= i < |w.stakes|
      ensures KeptOne(w.stakes[i], u[i], false)
    {
      assert KeptOne(v.stakes[i], u[i], i in ids);
      if i in ids {
        var k :| 0 <= k < |ids| && ids[k] == i;
        assert GrantedNow(w, v, ids[k]);
      }
    }
  }

  lemma GivenBackThenWakes(w: World, v: World, u: seq<Stake>, c: nat, ids: seq<int>)
    requires Owes(w, c) && Reported(PutBack(w, c), v, ids) && KeptBut(v.stakes, u, ids) && !Queued(w.stakes[c])
    ensures KeptAround(w.stakes, u, c)
    ensures u[c] == w.stakes[c].(charged := w.stakes[c].charged - 1)
  {
    GrantsThenWakes(PutBack(w, c), v, u, c, ids);
  }

  lemma KeptNothing(s: seq<Stake>)
    ensures KeptBut(s, s, [])
  {
  }

  lemma KeptNothingAround(s: seq<Stake>, c: nat)
    ensures KeptAround(s, s, c)
  {
  }

  /** A released key was handed on, and its new holder woken. */
  lemma HandThenWake(w: World, v: World, u: seq<Stake>, c: nat, next: int)
    requires Handed(w, v, c, next) && next >= 0 && KeptBut(v.stakes, u, [next])
    requires v.stakes[c].call.phase == Done
    ensures KeptAround(w.stakes, u, c) && u[c] == v.stakes[c]
  {
    forall i | 0 <= i < |w.stakes| && i != c
      ensures KeptOne(w.stakes[i], u[i], false)
    {
      assert KeptOne(v.stakes[i], u[i], i in [next]);
    }
    assert KeptOne(v.stakes[c], u[c], c in [next]);
  }

  /** The finishing call's own stake is let in again once it owes nothing. */
  lemma FinishKeeps(s: seq<Stake>, c: nat, r: E.Result, t: seq<Stake>)
    requires c < |s| == |t| && s[c].call.phase != Done
    requires KeptAround(s[c := Finishing(s[c], r)], t, c)
    requires SameOperation(s[c], t[c]) && t[c].st == Resting && t[c].call.phase == Done && Closed(t[c])
    ensures KeptBut(s, t, [c])
  {
    forall i | 0 <= i < |s|
      ensures KeptOne(s[i], t[i], i in [c])
    {
      assert i != c ==> KeptOne(s[c := Finishing(s[c], r)][i], t[i], false);
    }
  }

  /** A withdrawn call: those behind it were woken, then it finished. */
  lemma WithdrawKeeps(s: seq<Stake>, u: seq<Stake>, t: seq<Stake>, c: nat)
    requires c < |s| && KeptAround(s, u, c) && KeptBut(u, t, [c])
    requires s[c].call.phase != Done && u[c].call.phase != Done && SameOperation(s[c], u[c])
    ensures KeptBut(s, t, [c])
  {
    forall i | 0 <= i < |s|
      ensures KeptOne(s[i], t[i], i in [c])
    {
      assert KeptOne(u[i], t[i], i in [c]);
      assert i != c ==> KeptOne(s[i], u[i], false);
    }
  }

  predicate CalmBut(s: seq<Stake>, c: int) {
    forall i :: 0 <= i < |s| && i != c ==> s[i].st == Resting && Closed(s[i])
  }

  lemma CalmAfter(s: seq<Stake>, t: seq<Stake>, c: nat)
    requires c < |s| && CalmBut(s, c) && s[c].call.phase != Done && KeptBut(s, t, [c])
    ensures CalmBut(t, -1)
  {
    forall i | 0 <= i < |t|
      ensures t[i].st == Resting && Closed(t[i])
    {
      assert KeptOne(s[i], t[i], i in [c]);
    }
  }

  function LiveOne(x: Stake): nat {
    if x.call.phase == Done then 0 else 1
  }

  /** Calls that have not finished: what every cascade runs down. */
  function Live(ss: seq<Stake>): nat {
    if ss == [] then 0 else LiveOne(ss[0]) + Live(ss[1..])
  }

  lemma {:induction false} LiveSet(ss: seq<Stake>, i: nat, x: Stake)
    requires i < |ss|
    ensures Live(ss[i := x]) == Live(ss) - LiveOne(ss[i]) + LiveOne(x)
  {
    if i == 0 {
      assert ss[i := x][1..] == ss[1..];
    } else {
      LiveSet(ss[1..], i - 1, x);
      assert ss[i := x][1..] == ss[1..][i - 1 := x];
    }
  }

  lemma {:induction false} LiveShrinks(s: seq<Stake>, t: seq<Stake>)
    requires |s| == |t|
    requires forall i :: 0 <= i < |s| ==> LiveOne(t[i]) <= LiveOne(s[i])
    ensures Live(t) <= Live(s)
  {
    if s != [] {
      LiveShrinks(s[1..], t[1..]);
    }
  }

  lemma KeptLives(s: seq<Stake>, t: seq<Stake>, freed: seq<int>)
    requires KeptBut(s, t, freed)
    ensures Live(t) <= Live(s)
  {
    forall i | 0 <= i < |s|
      ensures LiveOne(t[i]) <= LiveOne(s[i])
    {
      assert KeptOne(s[i], t[i], i in freed);
    }
    LiveShrinks(s, t);
  }

  lemma AroundLives(s: seq<Stake>, t: seq<Stake>, c: nat)
    requires KeptAround(s, t, c) && c < |s| && s[c].call.phase == t[c].call.phase
    ensures Live(t) <= Live(s)
  {
    forall i | 0 <= i < |s|
      ensures LiveOne(t[i]) <= LiveOne(s[i])
    {
      assert i != c ==> KeptOne(s[i], t[i], false);
    }
    LiveShrinks(s, t);
  }

  /** Units moving or waiters being granted finishes nobody. */
  lemma LiveUnits(s: seq<Stake>, t: seq<Stake>)
    requires |s| == |t| && forall i :: 0 <= i < |s| ==> s[i].call == t[i].call
    ensures Live(t) <= Live(s)
  {
    LiveShrinks(s, t);
  }

  lemma HandedLives(w: World, v: World, c: nat, next: int)
    requires Handed(w, v, c, next) && w.stakes[c].call.phase == v.stakes[c].call.phase
    ensures Live(v.stakes) <= Live(w.stakes)
    ensures next >= 0 ==> v.stakes[next].st == Granted && WaitsKey(v.stakes[next].call)
  {
    LiveShrinks(w.stakes, v.stakes);
  }

  lemma GrantedAreKeyless(w: World, v: World, ids: seq<int>)
    requires Reported(w, v, ids)
    ensures AllToWake(v.stakes, ids)
  {
    forall j | 0 <= j < |ids|
      ensures ToWake(v.stakes, ids[j])
    {
      assert GrantedNow(w, v, ids[j]);
    }
  }

  /** Granting changes accounts, not calls. */
  lemma ReportedLinks(w: World, v: World, ids: seq<int>)
    requires Reported(w, v, ids)
    ensures forall i :: 0 <= i < |w.stakes| ==> v.stakes[i].call == w.stakes[i].call
  {
    forall i | 0 <= i < |w.stakes|
      ensures v.stakes[i].call == w.stakes[i].call
    {
      if i in ids {
        var k :| 0 <= k < |ids| && ids[k] == i;
        assert GrantedNow(w, v, ids[k]);
      }
    }
  }

  lemma GrantedLive(s: seq<Stake>, p: World, v: World, ids: seq<int>)
    requires Reported(p, v, ids) && |s| == |p.stakes| && forall i :: 0 <= i < |s| ==> p.stakes[i].call == s[i].call
    ensures Live(v.stakes) <= Live(s) && AllToWake(v.stakes, ids)
  {
    GrantedAreKeyless(p, v, ids);
    ReportedLinks(p, v, ids);
    LiveUnits(s, v.stakes);
  }

  lemma PutBackSem(w: World, c: nat, r: string, n: int)
    requires Owes(w, c) && LastClaim(w.stakes[c]) == Claim(r, n)
    ensures PutBack(w, c).sems == w.sems[r := PutBack(w, c).sems[r]]
    ensures PutBack(w, c).sems[r].Grant() == w.sems[r].Release(n)
    ensures PutBack(w, c).keys == w.keys
  {
    ReleaseIsGrant(w.sems[r], n);
  }

  /** Serving r's queue, in the semaphore's own terms. */
  lemma ServeShape(p: World, r: string, sems: map<string, Semaphore>, s: Semaphore, ids: seq<int>)
    requires Core(p) && KeysOk(p) && r in p.sems && SettledBut(p, r)
    requires p.sems == sems[r := p.sems[r]] && p.sems[r].Grant() == (s, ids)
    ensures var v := GrantAll(p, r); Good(v) && v.keys == p.keys && v.sems == sems[r := s] && Reported(p, v, ids)
  {
    GrantAllKeepsCore(p, r);
    GrantAllOnlyGrants(p, r);
    GrantsAreKeyQuiet(p, GrantAll(p, r));
    GrantAllReports(p, r);
    GrantAllSems(p, r);
    TwiceSet(sems, r, p.sems[r], s);
  }

  /** Giving back a claim, in the semaphore's own terms. */
  lemma GiveBackShape(w: World, c: nat, r: string, n: int)
    requires Good(w) && Owes(w, c) && LastClaim(w.stakes[c]) == Claim(r, n)
    ensures r in w.sems && n <= w.sems[r].used && r in PutBack(w, c).sems
    ensures var p := PutBack(w, c); var v := GrantAll(p, r); var (s, ids) := w.sems[r].Release(n);
            Good(v) && v.keys == w.keys && v.sems == w.sems[r := s] && Reported(p, v, ids)
  {
    var p := PutBack(w, c);
    PutBackKeepsCore(w, c);
    PutBackKeepsKeys(w, c);
    PutBackSem(w, c, r, n);
    var (s, ids) := w.sems[r].Release(n);
    ServeShape(p, r, w.sems, s, ids);
  }

  lemma PutBackKeepsKeys(w: World, c: nat)
    requires KeysOk(w) && Owes(w, c)
    ensures KeysOk(PutBack(w, c))
  {
    KeyQuietMove(w, PutBack(w, c), c);
  }

  lemma QuitShape(w: World, c: nat, r: string)
    requires Good(w) && c < |w.stakes| && r in w.sems && QueuedOn(w.stakes[c], r)
    ensures Good(QuitClaim(w, c, r)) && QuitClaim(w, c, r).keys == w.keys
    ensures QuitClaim(w, c, r).sems == w.sems[r := w.sems[r].Cancel(c).0]
    ensures Reported(WithStake(w, c, w.stakes[c].(st := Moving)), QuitClaim(w, c, r), w.sems[r].Cancel(c).1)
  {
    FindsItself(w, c, r);
    QuitClaimKeepsGood(w, c, r);
    QuitClaimSems(w, c, r);
    QuitClaimReports(w, c, r);
    QuitClaimKeys(w, c, r);
  }

  /** Handing on a key, in the locker's own terms. */
  lemma GiveShape(w: World, c: nat)
    requires Good(w) && c < |w.stakes| && Owns(w.stakes[c]) && w.stakes[c].call.phase == Done
             && w.stakes[c].charged == 0
    ensures OwesKey(w, c) && Good(GiveKey(w, c))
    ensures var v := GiveKey(w, c); var (keys, next) := K.Release(w.keys, w.stakes[c].call.key);
            next >= -1 && Handed(w, v, c, next) && v == World(v.stakes, w.sems, keys)
            && v.stakes[c] == w.stakes[c].(call := w.stakes[c].call.(hasKey := false))
  {
    assert HolderOk(w, c) && StakeOk(w.stakes[c]);
    GiveKeyKeepsGood(w, c);
    GiveKeyHands(w, c);
  }

  /** A system before its first step. */
  lemma FreshIsGood(w: World)
    requires w.keys == map[] && forall i :: 0 <= i < |w.stakes| ==>
               w.stakes[i].call.phase == Idle && w.stakes[i].st == Resting && w.stakes[i].charged == 0
               && !w.stakes[i].admitted && !w.stakes[i].call.hasKey && w.stakes[i].call.next == 0
               && ClaimsOk(w.stakes[i].call, w.sems)
    requires forall r :: r in w.sems ==> w.sems[r] == Semaphore(w.sems[r].cap, 0, []) && SemOk(w.sems[r])
    ensures Good(w)
  {
    forall r | r in w.sems
      ensures w.sems[r].used == Total(w.stakes, UnitsOf(r)) && QueueOk(w, r)
    {
      TotalZero(w.stakes, UnitsOf(r));
    }
  }

  /** Where its attempts stand matters to nobody else. */
  lemma ExecIsUnseen(w: World, c: nat, x: Stake)
    requires Good(w) && c < |w.stakes| && x == w.stakes[c].(call := w.stakes[c].call.(exec := x.call.exec))
    ensures Good(WithStake(w, c, x))
  {
    var v := WithStake(w, c, x);
    assert StakeOk(w.stakes[c]);
    StakesKept(w, v, c);
    SameCharge(w.stakes[c], x);
    LedgerKept(w, v, c, "", 0);
    forall p | p in v.sems
      ensures QueueOk(v, p)
    {
      assert QueueOk(w, p);
      QueueKept(w, v, c, p);
    }
    KeyQuietMove(w, v, c);
  }

  const OVERLOADED := E.Result(E.ClassOverloaded, THROTTLED, 0, false, 0)
  const CANCELED := E.Result(E.ClassCanceled, PERMANENT, 0, false, 0)
  const STOPPED := E.Result(E.ClassStopping, PERMANENT, 0, false, 0)

  function CallerGone(c: SysCall): E.Result {
    E.Result(E.CallerErr(c.setup, c.exec), PERMANENT, 0, false, 0)
  }

  // ---------- attempts ----------

  /** No attempt has begun. */
  predicate Fresh(x: E.State) {
    x.calls == 0 && !x.done && !x.held && x.now == 0
  }

  /** How a call that never ran can end. */
  predicate Refusal(c: SysCall, r: E.Result) {
    (r == OVERLOADED && c.reject) || r == STOPPED || (r == CallerGone(c) && r.class_ != E.ClassNil)
  }

  /** Some attempt holds, or the attempts are over. */
  predicate Begun(x: E.State) {
    x.done || (x.held && x.calls > 0)
  }

  /** A call holds exactly while an attempt of it holds, and reports exactly
      what its attempts came to, or why none was made. A Reject call never
      waits, save for its key under the old rules. */
  predicate PlayedOne(x: Stake) {
    var c := x.call;
    if x.st == Moving then Fresh(c.exec) || Begun(c.exec)
    else
      match c.phase
      case Idle => Fresh(c.exec)
      case Parked => Fresh(c.exec) && (c.reject ==> WaitsKey(c) && !c.setup.fixed)
      case Holding => Begun(c.exec) && !c.exec.done
      case Done => Ending(c, c.res) && (x.admitted || Fresh(c.exec))
  }

  predicate Ending(c: SysCall, r: E.Result) {
    (c.exec.done && r == c.exec.res) || (Fresh(c.exec) && Refusal(c, r))
  }

  lemma {:induction false} RunEnds(u: E.Setup, x: E.State)
    requires x.held ==> x.calls > 0
    ensures Begun(E.AfterRun(u, x)) && E.AfterRun(u, x).calls >= x.calls
    decreases E.Left(u, x)
  {
    if !x.done && !x.held && E.CallerErr(u, x) == E.ClassNil {
      var y := E.Begin(x);
      var a := E.At(u.call.script, y.calls);
      if !E.Holds(y, a) {
        E.EndMakesProgress(u, E.Awake(u, y, a), a, false);
        RunEnds(u, E.AfterEnd(u, E.Awake(u, y, a), a, false));
      }
    }
  }

  lemma EndKeepsCalls(u: E.Setup, x: E.State, a: E.Attempt, ctxEnded: bool)
    ensures E.AfterEnd(u, x, a, ctxEnded).calls == x.calls
    ensures !x.held ==> !E.AfterEnd(u, x, a, ctxEnded).held
  {
  }

  lemma ReleaseEnds(u: E.Setup, x: E.State)
    requires x.calls > 0
    ensures Begun(E.AfterRelease(u, x)) && E.AfterRelease(u, x).calls > 0
  {
    EndKeepsCalls(u, x.(held := false, released := true), E.At(u.call.script, x.calls), false);
    RunEnds(u, E.AfterEnd(u, x.(held := false, released := true), E.At(u.call.script, x.calls), false));
  }

  lemma CancelEnds(u: E.Setup, x: E.State)
    ensures x.held && x.calls > 0 ==> Begun(E.AfterCancel(u, x)) && E.AfterCancel(u, x).calls > 0
    ensures Fresh(x) ==> Fresh(E.AfterCancel(u, x))
  {
    var y, a := E.Cancelled(x), E.At(u.call.script, x.calls);
    if y.held && a.block == E.BlockHoldCtx {
      EndKeepsCalls(u, y.(held := false), a, true);
      RunEnds(u, E.AfterEnd(u, y.(held := false), a, true));
    }
  }

  lemma GrantsKeepPlayed(w: World, v: World, ids: seq<int>)
    requires Reported(w, v, ids) && forall i :: 0 <= i < |w.stakes| ==> PlayedOne(w.stakes[i])
    ensures forall i :: 0 <= i < |v.stakes| ==> PlayedOne(v.stakes[i])
  {
    forall i | 0 <= i < |v.stakes|
      ensures PlayedOne(v.stakes[i])
    {
      assert PlayedOne(w.stakes[i]);
      if i in ids {
        var k :| 0 <= k < |ids| && ids[k] == i;
        assert GrantedNow(w, v, ids[k]);
      }
    }
  }

  // ---------- counters ----------

  function AdmittedOne(x: Stake): int { if x.admitted then 1 else 0 }
  function FinishedOne(x: Stake): int { if x.admitted && x.call.phase == Done then 1 else 0 }
  function RetriedOne(x: Stake): int { if x.admitted && x.call.phase == Done then x.call.exec.retried else 0 }

  /** Refused at the gate, or overloaded before any attempt. */
  function RejectedOne(x: Stake): int {
    if x.call.phase == Done then if x.admitted then Overload(x.call, x.call.res) else 1 else 0
  }

  function Overload(c: SysCall, r: E.Result): int { if Fresh(c.exec) && r == OVERLOADED then 1 else 0 }

  /** The old rules count a call once it has all its claims, the fixed ones
      once its handler runs. */
  function StartedOne(x: Stake): int {
    if (if x.call.setup.fixed then x.call.exec.calls > 0 else !Fresh(x.call.exec)) then 1 else 0
  }

  /** What every counter must say. */
  datatype Marks = Marks(admitted: int, rejected: int, started: int, finished: int, retried: int)

  function Sums(ss: seq<Stake>): Marks {
    Marks(Total(ss, AdmittedOne), Total(ss, RejectedOne), Total(ss, StartedOne),
          Total(ss, FinishedOne), Total(ss, RetriedOne))
  }

  predicate SameMarks(x: Stake, y: Stake) {
    AdmittedOne(x) == AdmittedOne(y) && RejectedOne(x) == RejectedOne(y) && StartedOne(x) == StartedOne(y)
    && FinishedOne(x) == FinishedOne(y) && RetriedOne(x) == RetriedOne(y)
  }

  lemma MarksKept(s: seq<Stake>, t: seq<Stake>)
    requires |s| == |t| && forall i :: 0 <= i < |s| ==> SameMarks(s[i], t[i])
    ensures Sums(s) == Sums(t)
  {
    TotalSame(s, t, AdmittedOne);
    TotalSame(s, t, RejectedOne);
    TotalSame(s, t, StartedOne);
    TotalSame(s, t, FinishedOne);
    TotalSame(s, t, RetriedOne);
  }

  lemma MarkSet(s: seq<Stake>, i: nat, x: Stake)
    requires i < |s|
    ensures var a, b := Sums(s), Sums(s[i := x]);
            && b.admitted == a.admitted - AdmittedOne(s[i]) + AdmittedOne(x)
            && b.rejected == a.rejected - RejectedOne(s[i]) + RejectedOne(x)
            && b.started == a.started - StartedOne(s[i]) + StartedOne(x)
            && b.finished == a.finished - FinishedOne(s[i]) + FinishedOne(x)
            && b.retried == a.retried - RetriedOne(s[i]) + RetriedOne(x)
  {
    TotalUpdate(s, i, x, AdmittedOne);
    TotalUpdate(s, i, x, RejectedOne);
    TotalUpdate(s, i, x, StartedOne);
    TotalUpdate(s, i, x, FinishedOne);
    TotalUpdate(s, i, x, RetriedOne);
  }

  lemma HandedKeepsCounters(w: World, v: World, c: nat, next: int)
    requires Handed(w, v, c, next) && next >= -1
    requires forall i :: 0 <= i < |w.stakes| ==> PlayedOne(w.stakes[i])
    requires w.stakes[c].call.phase == Done && w.stakes[c].st == Resting
    requires v.stakes[c] == w.stakes[c].(call := w.stakes[c].call.(hasKey := v.stakes[c].call.hasKey))
    ensures Sums(w.stakes) == Sums(v.stakes)
    ensures forall i :: 0 <= i < |v.stakes| ==> PlayedOne(v.stakes[i])
    ensures forall i :: 0 <= i < |v.stakes| && i != c ==> v.stakes[i].call == w.stakes[i].call
  {
    forall i | 0 <= i < |v.stakes|
      ensures PlayedOne(v.stakes[i]) && SameMarks(w.stakes[i], v.stakes[i])
    {
      assert PlayedOne(w.stakes[i]);
    }
    MarksKept(w.stakes, v.stakes);
  }

  lemma GrantsKeepCounters(w: World, v: World, ids: seq<int>)
    requires Reported(w, v, ids)
    ensures Sums(w.stakes) == Sums(v.stakes)
  {
    forall i | 0 <= i < |w.stakes|
      ensures SameMarks(w.stakes[i], v.stakes[i])
    {
      if i in ids {
        var k :| 0 <= k < |ids| && ids[k] == i;
        assert GrantedNow(w, v, ids[k]);
      }
    }
    MarksKept(w.stakes, v.stakes);
  }

  lemma NoMarks(ss: seq<Stake>)
    requires forall i :: 0 <= i < |ss| ==> ss[i].call.phase == Idle && !ss[i].admitted && Fresh(ss[i].call.exec)
    ensures Sums(ss) == Marks(0, 0, 0, 0, 0)
  {
    TotalZero(ss, AdmittedOne);
    TotalZero(ss, RejectedOne);
    TotalZero(ss, StartedOne);
    TotalZero(ss, FinishedOne);
    TotalZero(ss, RetriedOne);
  }

  /** Once cancelled, a fresh call's caller is gone. */
  lemma CancelledCallerIsGone(u: E.Setup, x: E.State)
    requires Fresh(x)
    ensures E.CallerErr(u, E.AfterCancel(u, x)) == E.ClassCanceled
  {
  }

  datatype ShutdownView = ShutdownView(returned: bool, cancelled: bool, either: bool)

  datatype Kind = StepStart | StepRelease | StepCancel | StepShutdown
  datatype Step = Step(kind: Kind, call: nat, expired: bool)

  datatype Reply = Ok | NotApplicable | Ambiguous

  // ---------- what a started call comes to ----------

  /** It ends, waits for its key or for claim `at`, or its attempts run. */
  datatype Fate = Ends(res: E.Result) | Waits(at: nat) | Runs(to: E.State)

  predicate Available(sems: map<string, Semaphore>, cl: Claim) {
    cl.r in sems && sems[cl.r].TryAcquire(cl.n).1
  }

  /** The first claim from i on that is not free, or their number. */
  function FirstTaken(sems: map<string, Semaphore>, cs: seq<Claim>, i: nat): nat
    decreases |cs| - i
  {
    if i < |cs| && Available(sems, cs[i]) then FirstTaken(sems, cs, i + 1) else i
  }

  /** The caller's context has ended. */
  predicate Dead(c: SysCall) {
    E.CallerErr(c.setup, c.exec) != E.ClassNil
  }

  /** Decided by what is free before the call takes anything. */
  function FateOf(c: SysCall, sems: map<string, Semaphore>, keys: K.Table): Fate {
    if WaitsKey(c) && Dead(c) then Ends(CallerGone(c))
    else if WaitsKey(c) && c.key in keys then if c.reject && c.setup.fixed then Ends(OVERLOADED) else Waits(c.next)
    else ClaimsFate(c, sems)
  }

  function ClaimsFate(c: SysCall, sems: map<string, Semaphore>): Fate {
    if c.next < |c.claims| && !c.reject && Dead(c) then Ends(CallerGone(c))
    else
      var k := FirstTaken(sems, c.claims, c.next);
      if k >= |c.claims| then Runs(E.AfterRun(c.setup, c.exec)) else if c.reject then Ends(OVERLOADED) else Waits(k)
  }

  /** The call is where its attempts, now at x, put it. */
  predicate Settles(d: SysCall, x: E.State) {
    d.phase == (if x.done then Done else Holding) && (x.done ==> d.res == x.res)
  }

  predicate Meets(d: SysCall, f: Fate) {
    match f
    case Ends(r) => d.phase == Done && d.res == r
    case Waits(k) => d.phase == Parked && d.next == k
    case Runs(x) => Settles(d, x)
  }

  /** d is what became of c, driven from these semaphores and keys. */
  ghost predicate Follows(d: SysCall, c: SysCall, sems: map<string, Semaphore>, keys: K.Table) {
    forall f :: f == FateOf(c, sems, keys) ==> Meets(d, f)
  }

  ghost predicate FollowsClaims(d: SysCall, c: SysCall, sems: map<string, Semaphore>) {
    forall f :: f == ClaimsFate(c, sems) ==> Meets(d, f)
  }

  /** What c0 comes to is what c, further on, comes to. */
  ghost predicate Leads(c0: SysCall, sems0: map<string, Semaphore>, c: SysCall, sems: map<string, Semaphore>) {
    forall d :: FollowsClaims(d, c, sems) ==> FollowsClaims(d, c0, sems0)
  }

  ghost predicate FollowsRelease(d: SysCall, c: SysCall) {
    forall x :: x == E.AfterRelease(c.setup, c.exec) ==> Settles(d, x)
  }

  ghost predicate FollowsCancel(d: SysCall, c: SysCall) {
    forall x :: x == E.AfterCancel(c.setup, c.exec) ==> Settles(d, x)
  }

  /** Taking one claim leaves the others, which are on other semaphores. */
  lemma {:induction false} SameTaken(sems: map<string, Semaphore>, r: string, s: Semaphore, cs: seq<Claim>, i: nat)
    requires r in sems && forall j :: i <= j < |cs| ==> cs[j].r != r
    ensures FirstTaken(sems[r := s], cs, i) == FirstTaken(sems, cs, i)
    decreases |cs| - i
  {
    if i < |cs| {
      SameTaken(sems, r, s, cs, i + 1);
    }
  }

  lemma OneClaimTaken(c: SysCall, sems: map<string, Semaphore>, s: Semaphore,
                      c1: SysCall, sems1: map<string, Semaphore>)
    requires c.next < |c.claims| && Ascending(c.claims) && Available(sems, c.claims[c.next]) && (c.reject || !Dead(c))
    requires c1 == c.(next := c.next + 1) && sems1 == sems[c.claims[c.next].r := s]
    ensures Leads(c, sems, c1, sems1)
  {
    var r := c.claims[c.next].r;
    forall j | c.next < j < |c.claims|
      ensures c.claims[j].r != r
    {
      BeforeIrreflexive(r);
    }
    SameTaken(sems, r, s, c.claims, c.next + 1);
  }

  lemma KeyTaken(d: SysCall, c: SysCall, c1: SysCall, sems: map<string, Semaphore>, keys: K.Table)
    requires c1 == c.(hasKey := c1.hasKey) && (WaitsKey(c) ==> !Dead(c) && c.key !in keys)
    requires FollowsClaims(d, c1, sems)
    ensures Follows(d, c, sems, keys)
  {
    assert ClaimsFate(c1, sems) == ClaimsFate(c, sems);
  }

  lemma AllTaken(d: SysCall, c: SysCall, sems: map<string, Semaphore>, x: E.State)
    requires c.next == |c.claims| && x == E.AfterRun(c.setup, c.exec) && Settles(d, x)
    ensures FollowsClaims(d, c, sems)
  {
  }

  lemma KeyDecides(d: SysCall, c: SysCall, sems: map<string, Semaphore>, keys: K.Table)
    requires WaitsKey(c) && (Dead(c) || c.key in keys)
    requires Dead(c) ==> d.phase == Done && d.res == CallerGone(c)
    requires !Dead(c) && c.reject && c.setup.fixed ==> d.phase == Done && d.res == OVERLOADED
    requires !Dead(c) && !(c.reject && c.setup.fixed) ==> d.phase == Parked && d.next == c.next
    ensures Follows(d, c, sems, keys)
  {
  }

  lemma ClaimDecides(d: SysCall, c: SysCall, sems: map<string, Semaphore>)
    requires c.next < |c.claims| && ((!c.reject && Dead(c)) || !Available(sems, c.claims[c.next]))
    requires !c.reject && Dead(c) ==> d.phase == Done && d.res == CallerGone(c)
    requires c.reject ==> d.phase == Done && d.res == OVERLOADED
    requires !c.reject && !Dead(c) ==> d.phase == Parked && d.next == c.next
    ensures FollowsClaims(d, c, sems)
  {
  }

  class System {
    const fixed: bool
    var calls: seq<SysCall>
    var sems: map<string, Semaphore>
    var keys: K.Table
    var stopping: bool
    var admitted: nat
    var rejected: nat
    var started: nat
    var finished: nat
    var retried: nat
    var shutdowns: seq<ShutdownView>
    var expired: seq<bool>
    var root: int
    var active: set<int>
    var woken: nat
    ghost var stakes: seq<Stake>

    ghost function W(): World
      reads this`stakes, this`sems, this`keys
    {
      World(stakes, sems, keys)
    }

    ghost predicate Linked()
      reads this`stakes, this`calls
    {
      |stakes| == |calls| && forall i :: 0 <= i < |calls| ==> stakes[i].call == calls[i]
    }

    ghost predicate Tallied(pending: int)
      reads this`stakes, this`admitted, this`rejected, this`started, this`finished, this`retried
    {
      Sums(stakes) == Marks(admitted, rejected - pending, started, finished, retried)
    }

    ghost predicate Played()
      reads this`stakes
    {
      forall i :: 0 <= i < |stakes| ==> PlayedOne(stakes[i]) && stakes[i].call.setup.fixed == fixed
    }

    /** The state between steps of a cascade, but for `pending` refusals
        counted before the refused call is done. */
    ghost predicate ValidBut(pending: int)
      reads this`stakes, this`calls, this`sems, this`keys,
        this`admitted, this`rejected, this`started, this`finished, this`retried
    {
      Linked() && Good(W()) && Tallied(pending) && Played()
    }

    ghost predicate Valid()
      reads this`stakes, this`calls, this`sems, this`keys,
        this`admitted, this`rejected, this`started, this`finished, this`retried
    {
      ValidBut(0)
    }

    /** Call id is what a method is driving right now. */
    ghost predicate Moves(id: nat)
      reads this`stakes
    {
      id < |stakes| && stakes[id].st == Moving
    }

    /** Call id becomes c, and in the accounts x. */
    method Set(id: nat, c: SysCall, ghost x: Stake)
      requires id < |calls| && Linked() && x.call == c
      modifies this`calls, this`stakes
      ensures Linked() && stakes == old(stakes)[id := x] && calls == old(calls)[id := c]
    {
      calls := calls[id := c];
      stakes := stakes[id := x];
    }

    /** A change that only moves the call. */
    method Shift(id: nat, c: SysCall, ghost x: Stake)
      requires Valid() && id < |calls| && x.call == c
      requires Quiet(stakes[id], x) && PlayedOne(x)
      requires SameMarks(stakes[id], x)
      modifies this`calls, this`stakes
      ensures Valid() && stakes == old(stakes)[id := x] && calls == old(calls)[id := c]
    {
      QuietKeepsGood(W(), id, x);
      MarkSet(stakes, id, x);
      Set(id, c, x);
    }

    /** wake every waiter just granted, in order. */
    method WakeAll(ids: seq<int>)
      requires Valid() && AllToWake(stakes, ids)
      modifies this`calls, this`sems, this`keys, this`rejected, this`started, this`finished, this`retried,
        this`active, this`woken, this`stakes
      ensures Valid() && KeptBut(old(stakes), stakes, ids)
      decreases Live(stakes), 6
    {
      ghost var s := stakes;
      KeptNothing(s);
      for j := 0 to |ids|
        invariant Valid() && KeptBut(s, stakes, ids[..j])
        invariant Live(stakes) <= Live(s)
      {
        ghost var t := stakes;
        NotYetWoken(s, t, ids, j);
        Wake(ids[j], false);
        OneMoreWoken(s, t, stakes, ids, j);
      }
      assert ids[..|ids|] == ids;
    }

    /** wake: the call has its key or next claim, and goes on. */
    method Wake(id: nat, key: bool)
      requires Valid() && id < |stakes| && stakes[id].st == Granted && key == WaitsKey(calls[id])
      modifies this`calls, this`sems, this`keys, this`rejected, this`started, this`finished, this`retried,
        this`active, this`woken, this`stakes
      ensures Valid() && KeptBut(old(stakes), stakes, [id])
      decreases Live(stakes), 5
    {
      woken := woken + 1;
      ghost var s := stakes;
      var c := calls[id];
      assert StakeOk(stakes[id]) && PlayedOne(stakes[id]);
      WakingIsQuiet(stakes[id]);
      c := if key then c.(hasKey := true) else c.(next := c.next + 1);
      Shift(id, c, Woken(stakes[id]));
      LiveSet(s, id, stakes[id]);
      var more := (key && |c.claims| > 0) || (!key && c.next < |c.claims|);
      Advance(id);
      MoveThenKept(s, id, Woken(s[id]), stakes);
      if id != root && (more || calls[id].phase != Holding) {
        active := active + {id};
      }
    }

    /** advance: admission from wherever the call is, then its attempts. */
    method Advance(id: nat)
      requires Valid() && Moves(id)
      requires Fresh(calls[id].exec)
      modifies this`calls, this`sems, this`keys, this`rejected, this`started, this`finished, this`retried,
        this`active, this`woken, this`stakes
      ensures Valid() && KeptBut(old(stakes), stakes, [id])
      ensures id < |calls| && Follows(calls[id], old(calls[id]), old(sems), old(keys))
      decreases Live(stakes), 4
    {
      ghost var s, c0, sems0, keys0 := stakes, calls[id], sems, keys;
      var go := AdvanceKey(id);
      if !go {
        return;
      }
      ghost var t, c1, sems1 := stakes, calls[id], sems;
      LiveSet(s, id, t[id]);
      go := AdvanceClaims(id);
      if !go {
        MoveThenKept(s, id, t[id], stakes);
        KeyTaken(calls[id], c0, c1, sems0, keys0);
        return;
      }
      ghost var u := stakes;
      assert u == s[id := u[id]];
      LiveSet(s, id, u[id]);
      RunClaimed(id);
      MoveThenKept(s, id, u[id], stakes);
      KeyTaken(calls[id], c0, c1, sems0, keys0);
    }

    /** A call that has all it needs runs its attempts and settles. */
    method RunClaimed(id: nat)
      requires Valid() && Moves(id) && !WaitsKey(calls[id]) && calls[id].next == |calls[id].claims|
      requires Fresh(calls[id].exec)
      modifies this`calls, this`sems, this`keys, this`rejected, this`started, this`finished, this`retried,
        this`active, this`woken, this`stakes
      ensures Valid() && KeptBut(old(stakes), stakes, [id])
      ensures id < |calls| && FollowsClaims(calls[id], old(calls[id]), old(sems))
      decreases Live(stakes), 3
    {
      ghost var s, c, sems0 := stakes, calls[id], sems;
      RunHandler(id);
      ghost var x := stakes[id];
      LiveSet(s, id, x);
      Settle(id);
      MoveThenKept(s, id, x, stakes);
      AllTaken(calls[id], c, sems0, x.call.exec);
    }

    /** The first attempts of an admitted call, which count as its start. */
    method RunHandler(id: nat)
      requires Valid() && Moves(id) && Fresh(calls[id].exec)
      modifies this`calls, this`started, this`stakes
      ensures Valid() && id < |calls| && Begun(calls[id].exec)
      ensures stakes == old(stakes)[id := stakes[id]]
      ensures calls[id] == old(calls[id]).(exec := E.AfterRun(old(calls[id]).setup, old(calls[id]).exec))
      ensures stakes[id] == old(stakes[id]).(call := calls[id])
    {
      if !fixed {
        started := started + 1;
      }
      var c := calls[id];
      assert StakeOk(stakes[id]) && PlayedOne(stakes[id]);
      RunEnds(c.setup, c.exec);
      c := c.(exec := E.AfterRun(c.setup, c.exec));
      ghost var x := stakes[id].(call := c);
      QuietKeepsGood(W(), id, x);
      MarkSet(stakes, id, x);
      Set(id, c, x);
      if fixed && c.exec.calls > 0 {
        started := started + 1;
      }
    }

    /** The key, if the call needs one it does not have. False: it finished or parked. */
    method AdvanceKey(id: nat) returns (go: bool)
      requires Valid() && Moves(id)
      requires Fresh(calls[id].exec)
      modifies this`calls, this`sems, this`keys, this`rejected, this`started, this`finished, this`retried,
        this`active, this`woken, this`stakes
      ensures Valid()
      ensures !go ==> KeptBut(old(stakes), stakes, [id])
      ensures go ==> Moves(id) && stakes == old(stakes)[id := stakes[id]] && SameOperation(old(stakes)[id], stakes[id])
      ensures go ==> !WaitsKey(calls[id]) && Fresh(calls[id].exec)
      ensures id < |calls| && (!go ==> Follows(calls[id], old(calls[id]), old(sems), old(keys)))
      ensures go ==> sems == old(sems) && calls[id] == old(calls[id]).(hasKey := calls[id].hasKey)
      ensures go && WaitsKey(old(calls[id])) ==> !Dead(old(calls[id])) && old(calls[id]).key !in old(keys)
      decreases Live(stakes), 3
    {
      var c := calls[id];
      if !(c.keyed && c.key != "" && !c.hasKey) {
        return true;
      }
      ghost var sems0, keys0 := sems, keys;
      if E.CallerErr(c.setup, c.exec) != E.ClassNil {
        Finish(id, CallerGone(c));
        KeyDecides(calls[id], c, sems0, keys0);
        return false;
      }
      if c.reject && fixed && c.key in keys {
        rejected := rejected + 1;
        Finish(id, OVERLOADED);
        KeyDecides(calls[id], c, sems0, keys0);
        return false;
      }
      if c.key in keys {
        ParkForKey(id);
        KeyDecides(calls[id], c, sems0, keys0);
        return false;
      }
      OwnKey(id);
      return true;
    }

    method OwnKey(id: nat)
      requires Valid() && AtKey(W(), id) && calls[id].key !in keys
      requires Fresh(calls[id].exec)
      modifies this`calls, this`keys, this`stakes
      ensures Valid() && Moves(id) && stakes == old(stakes)[id := stakes[id]]
              && SameOperation(old(stakes)[id], stakes[id])
      ensures calls[id] == old(calls[id]).(hasKey := true)
    {
      TakeKeyKeepsGood(W(), id);
      BookKey(id, calls[id].(hasKey := true), K.Acquire(keys, id, calls[id].key).0, TakeKey(W(), id));
    }

    method ParkForKey(id: nat)
      requires Valid() && AtKey(W(), id) && calls[id].key in keys
      requires Fresh(calls[id].exec) && !(calls[id].reject && fixed)
      modifies this`calls, this`keys, this`stakes
      ensures Valid() && KeptBut(old(stakes), stakes, [id])
      ensures id < |calls| && calls[id] == old(calls[id]).(phase := Parked)
    {
      ParkOnKeyKeepsGood(W(), id);
      assert StakeOk(stakes[id]);
      RestKeeps(stakes, id, ParkOnKey(W(), id).stakes[id]);
      BookKey(id, calls[id].(phase := Parked), K.Acquire(keys, id, calls[id].key).0, ParkOnKey(W(), id));
    }

    /** The call and the keys change together, as v has them. */
    method BookKey(id: nat, c: SysCall, ks: K.Table, ghost v: World)
      requires Valid() && Good(v) && id < |calls| == |v.stakes|
      requires v == World(stakes[id := v.stakes[id]], sems, ks) && v.stakes[id].call == c
      requires SameMarks(stakes[id], v.stakes[id])
      requires PlayedOne(v.stakes[id]) && c.setup == calls[id].setup
      modifies this`calls, this`keys, this`stakes
      ensures Valid() && W() == v && calls == old(calls)[id := c]
    {
      MarkSet(stakes, id, v.stakes[id]);
      keys := ks;
      Set(id, c, v.stakes[id]);
    }

    /** The claims still missing, in order. False: it finished or parked. */
    method AdvanceClaims(id: nat) returns (go: bool)
      requires Valid() && Moves(id) && !WaitsKey(calls[id])
      requires Fresh(calls[id].exec)
      modifies this`calls, this`sems, this`keys, this`rejected, this`started, this`finished, this`retried,
        this`active, this`woken, this`stakes
      ensures Valid()
      ensures !go ==> KeptBut(old(stakes), stakes, [id])
      ensures go ==> Moves(id) && stakes == old(stakes)[id := stakes[id]] && SameOperation(old(stakes)[id], stakes[id])
      ensures go ==> !WaitsKey(calls[id]) && calls[id].next == |calls[id].claims| && Fresh(calls[id].exec)
      ensures id < |calls| && (!go ==> FollowsClaims(calls[id], old(calls[id]), old(sems)))
      ensures go ==>
                && calls[id] == old(calls[id]).(next := |calls[id].claims|)
                && Leads(old(calls[id]), old(sems), calls[id], sems)
      decreases Live(stakes), 3, 1
    {
      ghost var s, c0, sems0 := stakes, calls[id], sems;
      assert StakeOk(stakes[id]);
      go := true;
      while go && calls[id].next < |calls[id].claims|
        invariant Valid() && id < |s|
        invariant !go ==> KeptBut(s, stakes, [id])
        invariant go ==>
                    && Moves(id) && !WaitsKey(calls[id]) && calls[id].next <= |calls[id].claims|
                    && Fresh(calls[id].exec)
        invariant go ==>
                    && stakes == s[id := stakes[id]] && SameOperation(s[id], stakes[id])
                    && stakes[id].call.phase != Done
        invariant id < |calls| && (!go ==> FollowsClaims(calls[id], c0, sems0))
        invariant go ==> calls[id] == c0.(next := calls[id].next) && Leads(c0, sems0, calls[id], sems)
        decreases go, if id < |calls| then |calls[id].claims| - calls[id].next else 0
      {
        ghost var t := stakes;
        LiveSet(s, id, t[id]);
        go := NextUnits(id);
        if !go {
          MoveThenKept(s, id, t[id], stakes);
        }
      }
    }

    /** One claim: taken, or the call finishes or parks. */
    method NextUnits(id: nat) returns (ok: bool)
      requires Valid() && Moves(id) && !WaitsKey(calls[id]) && calls[id].next < |calls[id].claims|
      requires Fresh(calls[id].exec)
      modifies this`calls, this`sems, this`keys, this`rejected, this`started, this`finished, this`retried,
        this`active, this`woken, this`stakes
      ensures Valid()
      ensures !ok ==> KeptBut(old(stakes), stakes, [id])
      ensures ok ==> id < |stakes| && stakes == old(stakes)[id := stakes[id]]
                     && stakes[id] == old(stakes[id]).(
                          charged := old(stakes[id]).charged + 1,
                          call := old(stakes[id]).call.(next := old(stakes[id]).call.next + 1))
      ensures id < |calls| && (!ok ==> FollowsClaims(calls[id], old(calls[id]), old(sems)))
      ensures ok ==> Leads(old(calls[id]), old(sems), calls[id], sems)
      decreases Live(stakes), 3, 0
    {
      var c := calls[id];
      var cl := c.claims[c.next];
      assert ClaimsOk(stakes[id].call, sems) && StakeOk(stakes[id]);
      ok := true;
      if c.reject {
        if !sems[cl.r].TryAcquire(cl.n).1 {
          Refuse(id);
          return false;
        }
      } else if E.CallerErr(c.setup, c.exec) != E.ClassNil {
        GiveUp(id);
        return false;
      } else if !sems[cl.r].Acquire(id, cl.n).1 {
        ParkForClaim(id);
        return false;
      }
      OwnClaim(id);
    }

    /** A Reject call whose next claim is not free. */
    method Refuse(id: nat)
      requires Valid() && Moves(id) && Fresh(calls[id].exec) && calls[id].reject
      requires calls[id].next < |calls[id].claims| && !Available(sems, calls[id].claims[calls[id].next])
      modifies this`calls, this`sems, this`keys, this`rejected, this`started, this`finished, this`retried,
        this`active, this`woken, this`stakes
      ensures Valid() && KeptBut(old(stakes), stakes, [id])
      ensures id < |calls| && FollowsClaims(calls[id], old(calls[id]), old(sems))
      decreases Live(stakes), 2
    {
      ghost var c, sems0 := calls[id], sems;
      rejected := rejected + 1;
      Finish(id, OVERLOADED);
      ClaimDecides(calls[id], c, sems0);
    }

    /** A Wait call that still needs a claim but whose caller is gone. */
    method GiveUp(id: nat)
      requires Valid() && Moves(id) && Fresh(calls[id].exec) && !calls[id].reject && Dead(calls[id])
      requires calls[id].next < |calls[id].claims|
      modifies this`calls, this`sems, this`keys, this`rejected, this`started, this`finished, this`retried,
        this`active, this`woken, this`stakes
      ensures Valid() && KeptBut(old(stakes), stakes, [id])
      ensures id < |calls| && FollowsClaims(calls[id], old(calls[id]), old(sems))
      decreases Live(stakes), 2
    {
      var c := calls[id];
      ghost var sems0 := sems;
      Finish(id, CallerGone(c));
      ClaimDecides(calls[id], c, sems0);
    }

    /** The call and one semaphore change together, as v has them. */
    method Book(id: nat, c: SysCall, r: string, s: Semaphore, ghost v: World)
      requires Linked() && Tallied(0) && Good(v) && id < |calls| == |v.stakes|
      requires v == World(stakes[id := v.stakes[id]], sems[r := s], keys) && v.stakes[id].call == c
      requires SameMarks(stakes[id], v.stakes[id])
      requires Played() && PlayedOne(v.stakes[id]) && c.setup == calls[id].setup
      modifies this`calls, this`sems, this`stakes
      ensures Valid() && W() == v && calls == old(calls)[id := c]
    {
      MarkSet(stakes, id, v.stakes[id]);
      sems := sems[r := s];
      Set(id, c, v.stakes[id]);
    }

    method OwnClaim(id: nat)
      requires Valid() && AtClaim(W(), id) && sems[NextClaim(stakes[id]).r].TryAcquire(NextClaim(stakes[id]).n).1
      requires calls[id].reject || !Dead(calls[id])
      modifies this`calls, this`sems, this`stakes
      ensures Valid() && id < |stakes| && stakes == old(stakes)[id := stakes[id]]
      ensures stakes[id] == old(stakes[id]).(charged := old(stakes[id]).charged + 1,
                                             call := old(stakes[id]).call.(next := old(stakes[id]).call.next + 1))
      ensures id < |calls| && Leads(old(calls[id]), old(sems), calls[id], sems)
    {
      var c := calls[id];
      var cl := c.claims[c.next];
      ghost var c0, sems0, s := c, sems, sems[cl.r].TryAcquire(cl.n).0;
      assert ClaimsOk(c, sems);
      TakeClaimKeepsGood(W(), id);
      Book(id, c.(next := c.next + 1), cl.r, sems[cl.r].TryAcquire(cl.n).0, TakeClaim(W(), id));
      OneClaimTaken(c0, sems0, s, calls[id], sems);
    }

    method ParkForClaim(id: nat)
      requires Valid() && AtClaim(W(), id) && !sems[NextClaim(stakes[id]).r].TryAcquire(NextClaim(stakes[id]).n).1
      requires stakes[id].call.phase != Done
      requires Fresh(calls[id].exec) && !calls[id].reject && !Dead(calls[id])
      modifies this`calls, this`sems, this`stakes
      ensures Valid() && KeptBut(old(stakes), stakes, [id])
      ensures id < |calls| && FollowsClaims(calls[id], old(calls[id]), old(sems))
    {
      ghost var sems0 := sems;
      ParkOnClaimKeepsGood(W(), id);
      ghost var v := ParkOnClaim(W(), id);
      RestKeeps(stakes, id, v.stakes[id]);
      var c := calls[id];
      var cl := c.claims[c.next];
      Book(id, c.(phase := Parked), cl.r, sems[cl.r].Acquire(id, cl.n).0, v);
      ClaimDecides(calls[id], c, sems0);
    }

    /** settle: the call is holding, or its handler has returned. */
    method Settle(id: nat)
      requires Valid() && Moves(id) && !WaitsKey(calls[id]) && calls[id].next == |calls[id].claims|
      requires Begun(calls[id].exec)
      modifies this`calls, this`sems, this`keys, this`rejected, this`started, this`finished, this`retried,
        this`active, this`woken, this`stakes
      ensures Valid() && KeptBut(old(stakes), stakes, [id])
      ensures calls[id].phase == if old(calls)[id].exec.done then Done else Holding
      ensures old(calls)[id].exec.done ==> calls[id].res == old(calls)[id].exec.res
      decreases Live(stakes), 2
    {
      var c := calls[id];
      if !c.exec.done {
        assert StakeOk(stakes[id]);
        ghost var x := stakes[id].(st := Resting, call := c.(phase := Holding));
        RestKeeps(stakes, id, x);
        Shift(id, c.(phase := Holding), x);
        return;
      }
      Finish(id, c.exec.res);
    }

    /** finish: count the call done, give back its claims last to first, then
        its key, waking whoever is served. */
    method Finish(id: nat, r: E.Result)
      requires id < |calls| && ValidBut(Overload(calls[id], r)) && Moves(id) && Ending(calls[id], r)
      modifies this`calls, this`sems, this`keys, this`rejected, this`started, this`finished, this`retried,
        this`active, this`woken, this`stakes
      ensures Valid() && KeptBut(old(stakes), stakes, [id])
      ensures stakes[id].call.phase == Done && id < |calls| && calls[id].phase == Done && calls[id].res == r
      decreases Live(stakes), 1
    {
      ghost var s := stakes;
      var n := calls[id].next;
      assert StakeOk(stakes[id]);
      MarkDone(id, r);
      LiveSet(s, id, stakes[id]);
      ghost var done := stakes;
      KeptNothingAround(done, id);
      for i := n downto 0
        invariant Valid() && id < |stakes| == |done|
        invariant stakes[id] == done[id].(charged := i)
        invariant KeptAround(done, stakes, id) && Live(stakes) < Live(s)
      {
        ghost var t := stakes;
        GiveClaim(id, i);
        AroundChains(done, t, stakes, id);
        AroundLives(t, stakes, id);
      }
      if calls[id].hasKey {
        ghost var t := stakes;
        GiveUpKey(id);
        AroundChains(done, t, stakes, id);
      }
      FinishKeeps(s, id, r, stakes);
    }

    method MarkDone(id: nat, r: E.Result)
      requires id < |calls| && ValidBut(Overload(calls[id], r)) && Moves(id) && Ending(calls[id], r)
      modifies this`calls, this`finished, this`retried, this`stakes
      ensures Valid() && stakes == old(stakes)[id := Finishing(old(stakes)[id], r)]
    {
      assert StakeOk(stakes[id]);
      ghost var x := Finishing(stakes[id], r);
      FinishingIsQuiet(stakes[id], r);
      QuietKeepsGood(W(), id, x);
      MarkSet(stakes, id, x);
      finished := finished + 1;
      retried := retried + calls[id].exec.retried;
      Set(id, calls[id].(phase := Done, res := r, next := 0), x);
    }

    /** Claim i of a finished call goes back; whoever is served is woken. */
    method GiveClaim(id: nat, i: nat)
      requires Valid() && id < |stakes| && stakes[id].call.phase == Done && stakes[id].charged == i + 1
      modifies this`calls, this`sems, this`keys, this`rejected, this`started, this`finished, this`retried,
        this`active, this`woken, this`stakes
      ensures Valid() && KeptAround(old(stakes), stakes, id)
      ensures id < |stakes| && stakes[id] == old(stakes[id]).(charged := i)
      decreases Live(stakes), 7
    {
      ghost var w := W();
      OwesClaim(id);
      var ids := ReleaseUnits(id, i);
      ghost var v := W();
      WakeAll(ids);
      GivenBackThenWakes(w, v, stakes, id, ids);
    }

    /** What GiveClaim needs of a finished call that is still charged. */
    lemma OwesClaim(id: nat)
      requires Valid() && id < |stakes| && stakes[id].call.phase == Done && stakes[id].charged > 0
      ensures Owes(W(), id)
    {
      assert StakeOk(stakes[id]) && ClaimsOk(stakes[id].call, sems);
    }

    /** Waiters were granted on one semaphore after call id's own change, from p to v. */
    method BookGrants(id: nat, r: string, s: Semaphore, ids: seq<int>, ghost p: World, ghost v: World)
      requires Linked() && Tallied(0) && Good(v) && id < |calls| == |p.stakes|
      requires p.stakes == stakes[id := p.stakes[id]] && p.stakes[id].call == calls[id]
      requires SameMarks(stakes[id], p.stakes[id])
      requires Reported(p, v, ids) && v.sems == sems[r := s] && v.keys == keys
      requires Played() && PlayedOne(p.stakes[id])
      modifies this`sems, this`stakes
      ensures Valid() && W() == v
    {
      MarkSet(stakes, id, p.stakes[id]);
      GrantsKeepCounters(p, v, ids);
      ReportedLinks(p, v, ids);
      GrantsKeepPlayed(p, v, ids);
      sems := sems[r := s];
      stakes := v.stakes;
    }

    /** Release: the units of claim i are given back and the queue served. */
    method ReleaseUnits(id: nat, i: nat) returns (ids: seq<int>)
      requires Valid() && Owes(W(), id) && stakes[id].charged == i + 1
      modifies this`sems, this`stakes
      ensures Valid() && Reported(PutBack(old(W()), id), W(), ids) && Live(stakes) <= Live(old(stakes))
      ensures AllToWake(stakes, ids)
    {
      var cl := calls[id].claims[i];
      ghost var p := PutBack(W(), id);
      GiveBackShape(W(), id, cl.r, cl.n);
      var (s, g) := sems[cl.r].Release(cl.n);
      GrantedLive(stakes, p, GrantAll(p, cl.r), g);
      BookGrants(id, cl.r, s, g, p, GrantAll(p, cl.r));
      ids := g;
    }

    /** The key of a finished call goes to its next waiter, who is woken. */
    method GiveUpKey(id: nat)
      requires Valid() && id < |stakes| && stakes[id].call.phase == Done && stakes[id].charged == 0 && calls[id].hasKey
      modifies this`calls, this`sems, this`keys, this`rejected, this`started, this`finished, this`retried,
        this`active, this`woken, this`stakes
      ensures Valid() && KeptAround(old(stakes), stakes, id)
      ensures id < |stakes| && stakes[id] == old(stakes[id]).(call := old(stakes[id]).call.(hasKey := false))
      decreases Live(stakes), 7
    {
      ghost var w := W();
      var next := ReleaseKey(id);
      ghost var v := W();
      if next >= 0 {
        HandedLives(w, v, id, next);
        Wake(next, true);
        HandThenWake(w, v, stakes, id, next);
      }
    }

    method ReleaseKey(id: nat) returns (next: int)
      requires Valid() && id < |stakes| && stakes[id].call.phase == Done && stakes[id].charged == 0 && calls[id].hasKey
      modifies this`calls, this`keys, this`stakes
      ensures Valid() && Handed(old(W()), W(), id, next)
      ensures id < |stakes| && stakes[id] == old(stakes[id]).(call := old(stakes[id]).call.(hasKey := false))
    {
      ghost var w := W();
      assert StakeOk(stakes[id]);
      GiveShape(w, id);
      ghost var v := GiveKey(w, id);
      var (ks, n0) := K.Release(keys, calls[id].key);
      HandedKeepsCounters(w, v, id, n0);
      next := n0;
      BookHandOff(id, calls[id].(hasKey := false), ks, v);
    }

    /** A finished call gave its key away, which touched no call but it. */
    method BookHandOff(id: nat, c: SysCall, ks: K.Table, ghost v: World)
      requires Valid() && Good(v) && id < |calls| == |v.stakes| && v == World(v.stakes, sems, ks)
      requires v.stakes[id].call == c && c.setup == calls[id].setup
      requires forall i :: 0 <= i < |calls| && i != id ==> v.stakes[i].call == calls[i]
      requires Sums(v.stakes) == Sums(stakes) && forall i :: 0 <= i < |v.stakes| ==> PlayedOne(v.stakes[i])
      modifies this`calls, this`keys, this`stakes
      ensures Valid() && W() == v
    {
      keys := ks;
      calls := calls[id := c];
      stakes := v.stakes;
    }

    /** withdraw: a parked call leaves its queue, then releases. */
    method Withdraw(id: nat, r: E.Result)
      requires Valid() && id < |stakes| && stakes[id].st == Resting && calls[id].phase == Parked
      requires Refusal(calls[id], r) && r != OVERLOADED
      modifies this`calls, this`sems, this`keys, this`rejected, this`started, this`finished, this`retried,
        this`active, this`woken, this`stakes
      ensures Valid() && KeptBut(old(stakes), stakes, [id])
      ensures stakes[id].call.phase == Done && calls[id].res == r
    {
      ghost var s := stakes;
      var c := calls[id];
      assert StakeOk(stakes[id]) && PlayedOne(stakes[id]);
      if c.keyed && c.key != "" && !c.hasKey {
        LeaveKey(id);
      } else {
        LeaveClaim(id);
      }
      ghost var u := stakes;
      Finish(id, r);
      WithdrawKeeps(s, u, stakes, id);
    }

    method LeaveKey(id: nat)
      requires Valid() && id < |stakes| && AwaitsKey(stakes[id])
      modifies this`calls, this`keys, this`stakes
      ensures Valid() && KeptAround(old(stakes), stakes, id)
      ensures id < |stakes| && stakes[id] == old(stakes[id]).(st := Moving)
    {
      QuitKeyKeepsGood(W(), id);
      KeptNothingAround(stakes, id);
      BookKey(id, calls[id], K.Cancel(keys, id, calls[id].key), QuitKey(W(), id));
    }

    method LeaveClaim(id: nat)
      requires Valid() && id < |stakes| && Queued(stakes[id])
      modifies this`calls, this`sems, this`keys, this`rejected, this`started, this`finished, this`retried,
        this`active, this`woken, this`stakes
      ensures Valid() && KeptAround(old(stakes), stakes, id)
      ensures id < |stakes| && stakes[id] == old(stakes[id]).(st := Moving)
    {
      assert ClaimsOk(stakes[id].call, sems);
      ghost var p := WithStake(W(), id, stakes[id].(st := Moving));
      var ids := QuitQueue(id);
      ghost var v := W();
      GrantedAreKeyless(p, v, ids);
      WakeAll(ids);
      GrantsThenWakes(p, v, stakes, id, ids);
    }

    method QuitQueue(id: nat) returns (ids: seq<int>)
      requires Valid() && id < |stakes| && Queued(stakes[id]) && calls[id].claims[calls[id].next].r in sems
      modifies this`sems, this`stakes
      ensures Valid()
      ensures Reported(WithStake(old(W()), id, old(stakes[id]).(st := Moving)), W(), ids)
    {
      var r := calls[id].claims[calls[id].next].r;
      QuitShape(W(), id, r);
      var (s, g) := sems[r].Cancel(id);
      BookGrants(id, r, s, g, WithStake(W(), id, stakes[id].(st := Moving)), QuitClaim(W(), id, r));
      ids := g;
    }

    // ---------- one driving step ----------

    /** Every call is idle, parked, holding or done, and owes nothing. */
    ghost predicate Still()
      reads this`stakes
    {
      CalmBut(stakes, -1)
    }

    /** A scenario's system, before its first step. Twice a capacity must not
        overflow: sem.go adds before it compares (sem.go:18, sem.go:71), and past
        that bound the reference grants what the runtime refuses, on some run of
        every such semaphore (Sems.RunsAgreeExactlyWhenSmall). */
    constructor (rules: bool, caps: map<string, int>, cs: seq<SysCall>)
      requires forall r :: r in caps ==> 0 < caps[r] && 2 * caps[r] <= B.MAX_INT64
      requires forall i :: 0 <= i < |cs| ==>
                 cs[i].phase == Idle && cs[i].next == 0 && !cs[i].hasKey
                 && cs[i].exec == E.New(cs[i].setup) && cs[i].setup.fixed == rules
      requires forall i :: 0 <= i < |cs| ==>
                 Ascending(cs[i].claims) && forall j :: 0 <= j < |cs[i].claims| ==>
                   cs[i].claims[j].r in caps && 0 < cs[i].claims[j].n <= caps[cs[i].claims[j].r]
      ensures Valid() && Still() && calls == cs && fixed == rules && !stopping && shutdowns == [] && expired == []
    {
      fixed, calls := rules, cs;
      sems := map r | r in caps :: Semaphore(caps[r], 0, []);
      keys, stopping, shutdowns, expired := map[], false, [], [];
      admitted, rejected, started, finished, retried := 0, 0, 0, 0, 0;
      root, active, woken := -1, {}, 0;
      stakes := seq(|cs|, i requires 0 <= i < |cs| => Stake(cs[i], Resting, 0, false));
      new;
      FreshIsGood(W());
      NoMarks(stakes);
    }

    /** A call at rest is taken up again, its attempts having moved on. */
    method Rouse(id: nat, exec: E.State)
      requires Valid() && id < |stakes| && stakes[id].st == Resting && calls[id].phase == Holding
      requires Begun(exec) && exec.calls > 0
      modifies this`calls, this`stakes
      ensures Valid() && Moves(id) && !WaitsKey(calls[id]) && calls[id].next == |calls[id].claims|
      ensures stakes == old(stakes)[id := stakes[id]] && stakes[id].call.phase == Holding && calls[id].exec == exec
      ensures |calls| == |old(calls)|
    {
      var c := calls[id].(exec := exec);
      assert StakeOk(stakes[id]);
      Shift(id, c, stakes[id].(call := c, st := Moving));
    }

    /** start: refused once stopping, else admitted and driven. */
    method Start(id: nat)
      requires Ready() && id < |stakes| && calls[id].phase == Idle
      modifies this`calls, this`sems, this`keys, this`admitted, this`rejected, this`started, this`finished,
        this`retried, this`active, this`woken, this`stakes
      ensures Ready()
      ensures id < |calls|
      ensures stopping ==>
                calls == old(calls)[id := old(calls)[id].(phase := Done, res := STOPPED)] && admitted == old(admitted)
      ensures !stopping ==> admitted == old(admitted) + 1
                            && Follows(calls[id], old(calls[id]), old(sems), old(keys))
      ensures |calls| == |old(calls)|
    {
      if stopping {
        TurnAway(id);
        return;
      }
      Begin(id);
    }

    method Begin(id: nat)
      requires Valid() && Still() && id < |stakes| && calls[id].phase == Idle
      modifies this`calls, this`sems, this`keys, this`admitted, this`rejected, this`started, this`finished,
        this`retried, this`active, this`woken, this`stakes
      ensures Valid() && Still() && id < |calls| && admitted == old(admitted) + 1
      ensures Follows(calls[id], old(calls[id]), old(sems), old(keys))
      ensures |calls| == |old(calls)|
    {
      Admit(id);
      ghost var t := stakes;
      Advance(id);
      CalmAfter(t, stakes, id);
    }

    method TurnAway(id: nat)
      requires Ready() && id < |stakes| && calls[id].phase == Idle
      modifies this`calls, this`rejected, this`stakes
      ensures Ready() && calls == old(calls)[id := old(calls)[id].(phase := Done, res := STOPPED)]
      ensures |calls| == |old(calls)|
    {
      rejected := rejected + 1;
      var c := calls[id].(phase := Done, res := STOPPED);
      ghost var x := stakes[id].(call := c);
      assert StakeOk(stakes[id]) && PlayedOne(stakes[id]);
      QuietKeepsGood(W(), id, x);
      MarkSet(stakes, id, x);
      Set(id, c, x);
    }

    method Admit(id: nat)
      requires Valid() && Still() && id < |stakes| && stakes[id].st == Resting && calls[id].phase == Idle
      modifies this`admitted, this`stakes
      ensures Valid() && Moves(id) && stakes == old(stakes)[id := stakes[id]] && stakes[id].call.phase == Idle
      ensures admitted == old(admitted) + 1 && Fresh(calls[id].exec) && CalmBut(stakes, id)
    {
      ghost var x := stakes[id].(st := Moving, admitted := true);
      assert StakeOk(stakes[id]) && PlayedOne(stakes[id]);
      QuietKeepsGood(W(), id, x);
      MarkSet(stakes, id, x);
      admitted := admitted + 1;
      stakes := stakes[id := x];
    }

    /** A held attempt is let go, or its call cancelled, and the call settled. */
    method Resume(id: nat, exec: E.State)
      requires Valid() && Still() && id < |stakes| && calls[id].phase == Holding && Begun(exec) && exec.calls > 0
      modifies this`calls, this`sems, this`keys, this`rejected, this`started, this`finished, this`retried,
        this`active, this`woken, this`stakes
      ensures Valid() && Still() && id < |calls|
      ensures Settles(calls[id], exec)
      ensures |calls| == |old(calls)|
    {
      Rouse(id, exec);
      ghost var t := stakes;
      Settle(id);
      CalmAfter(t, stakes, id);
    }

    /** cancel: a parked call is withdrawn, a holding one settled. */
    method CancelCall(id: nat) returns (ok: bool)
      requires Ready() && id < |stakes|
      modifies this`calls, this`sems, this`keys, this`rejected, this`started, this`finished, this`retried,
        this`active, this`woken, this`stakes
      ensures Ready()
      ensures id < |calls| && (ok <==> old(calls)[id].phase == Parked || old(calls)[id].phase == Holding)
      ensures !ok ==> stakes == old(stakes)
      ensures old(calls)[id].phase == Parked ==> calls[id].phase == Done && calls[id].res == CANCELED
      ensures old(calls)[id].phase == Holding ==>
                FollowsCancel(calls[id], old(calls)[id])
      ensures |calls| == |old(calls)|
    {
      var c := calls[id];
      assert PlayedOne(stakes[id]) && StakeOk(stakes[id]);
      CancelEnds(c.setup, c.exec);
      match c.phase {
        case Parked =>
          CancelParked(id);
          ok := true;
        case Holding =>
          NobodyPromised(id);
          Resume(id, E.AfterCancel(c.setup, c.exec));
          ok := true;
        case _ => ok := false;
      }
    }

    method CancelParked(id: nat)
      requires Ready() && id < |stakes| && calls[id].phase == Parked
      modifies this`calls, this`sems, this`keys, this`rejected, this`started, this`finished, this`retried,
        this`active, this`woken, this`stakes
      ensures Ready() && id < |calls| && calls[id].phase == Done && calls[id].res == CANCELED
      ensures |calls| == |old(calls)|
    {
      NobodyPromised(id);
      EndContext(id);
      ghost var s := stakes;
      Withdraw(id, CallerGone(calls[id]));
      CalmAfter(s, stakes, id);
    }

    /** The context of a parked call ends, which nobody else sees. */
    method EndContext(id: nat)
      requires Valid() && Still() && id < |stakes| && calls[id].phase == Parked
      modifies this`calls, this`stakes
      ensures Valid() && Still() && id < |calls| && calls[id].phase == Parked && CallerGone(calls[id]) == CANCELED
      ensures |calls| == |old(calls)|
    {
      var c := calls[id];
      assert PlayedOne(stakes[id]) && StakeOk(stakes[id]);
      CancelEnds(c.setup, c.exec);
      CancelledCallerIsGone(c.setup, c.exec);
      c := c.(exec := E.AfterCancel(c.setup, c.exec));
      ghost var x := stakes[id].(call := c);
      ExecIsUnseen(W(), id, x);
      MarkSet(stakes, id, x);
      Set(id, c, x);
    }

    /** shutdown: stop admitting and withdraw every waiter. False: which waiter
        wins depends on scheduling. */
    method Shutdown(exp: bool) returns (ok: bool)
      requires Ready()
      modifies this`calls, this`sems, this`keys, this`stopping, this`rejected, this`started, this`finished,
        this`retried, this`shutdowns, this`expired, this`active, this`woken, this`stakes
      ensures ok ==> Ready()
      ensures ok ==>
                && stopping && shutdowns == old(shutdowns) + [ShutdownView(false, false, false)]
                && expired == old(expired) + [exp]
      ensures !ok ==> shutdowns == old(shutdowns) && expired == old(expired)
      ensures old(stopping) ==> ok && calls == old(calls)
      ensures ok && !old(stopping) ==> forall i :: 0 <= i < |calls| ==> calls[i].phase != Parked
      ensures |calls| == |old(calls)|
    {
      if !stopping {
        var i := 0;
        while i < |calls| && !(calls[i].phase == Parked && (calls[i].next > 0 || calls[i].hasKey))
          invariant 0 <= i <= |calls|
        {
          i := i + 1;
        }
        if i < |calls| {
          return false;
        }
        stopping := true;
        WithdrawAll();
        if woken > 0 {
          return false;
        }
      }
      shutdowns := shutdowns + [ShutdownView(false, false, false)];
      expired := expired + [exp];
      ok := true;
    }

    method WithdrawAll()
      requires Valid() && Still()
      modifies this`calls, this`sems, this`keys, this`rejected, this`started, this`finished, this`retried,
        this`active, this`woken, this`stakes
      ensures Valid() && Still() && |calls| == |old(calls)|
      ensures forall i :: 0 <= i < |calls| ==> calls[i].phase != Parked
    {
      ghost var n := |calls|;
      for i := 0 to |calls|
        invariant Valid() && Still() && |calls| == n
        invariant forall j :: 0 <= j < i ==> stakes[j].call.phase != Parked
      {
        if calls[i].phase == Parked {
          ghost var s := stakes;
          Withdraw(i, STOPPED);
          CalmAfter(s, stakes, i);
          forall j | 0 <= j < i
            ensures stakes[j].call.phase != Parked
          {
            assert KeptOne(s[j], stakes[j], j in [i]);
          }
        }
      }
    }

    /** Nothing admitted is live. */
    predicate Drained()
      reads this`calls
    {
      forall i :: 0 <= i < |calls| ==> calls[i].phase != Parked && calls[i].phase != Holding
    }

    /** A Shutdown that returned nil was right, and still is. */
    predicate Promised()
      reads this`calls, this`stopping, this`shutdowns, this`expired
    {
      && |shutdowns| == |expired|
      && (shutdowns != [] ==> stopping)
      && forall i :: 0 <= i < |shutdowns| && shutdowns[i].returned && !shutdowns[i].cancelled ==> Drained()
    }

    /** Ready for the next driving step. */
    ghost predicate Ready()
      reads this
    {
      Valid() && Still() && Promised()
    }

    /** While a call is parked or holding, no Shutdown has returned nil. */
    lemma NobodyPromised(id: nat)
      requires Promised() && id < |calls| && (calls[id].phase == Parked || calls[id].phase == Holding)
      ensures forall i :: 0 <= i < |shutdowns| && shutdowns[i].returned ==> shutdowns[i].cancelled
    {
    }

    /** A held attempt is let go. */
    method ReleaseCall(id: nat)
      requires Ready() && id < |stakes| && calls[id].phase == Holding
      modifies this`calls, this`sems, this`keys, this`rejected, this`started, this`finished, this`retried,
        this`active, this`woken, this`stakes
      ensures Ready() && id < |calls| && FollowsRelease(calls[id], old(calls)[id])
      ensures |calls| == |old(calls)|
    {
      NobodyPromised(id);
      var c := calls[id];
      assert PlayedOne(stakes[id]) && StakeOk(stakes[id]);
      ReleaseEnds(c.setup, c.exec);
      Resume(id, E.AfterRelease(c.setup, c.exec));
    }

    /** A step on one call. */
    method DriveCall(st: Step) returns (reply: Reply)
      requires Ready() && st.kind != StepShutdown && st.call < |calls|
      modifies this`calls, this`sems, this`keys, this`admitted, this`rejected, this`started, this`finished,
        this`retried, this`active, this`woken, this`stakes
      ensures Ready() && |calls| == |old(calls)|
      ensures Answered(st, reply, old(Before(calls, sems, keys, stopping)), calls, stopping)
    {
      match st.kind {
        case StepStart =>
          if calls[st.call].phase != Idle {
            return NotApplicable;
          }
          Start(st.call);
        case StepRelease =>
          if calls[st.call].phase != Holding {
            return NotApplicable;
          }
          ReleaseCall(st.call);
        case StepCancel =>
          var ok := CancelCall(st.call);
          if !ok {
            return NotApplicable;
          }
        case StepShutdown => assert false;
      }
      reply := Ok;
    }

    /** The step itself, up to what it answers. */
    method Drive(st: Step) returns (reply: Reply)
      requires Ready() && (st.kind != StepShutdown ==> st.call < |calls|)
      modifies this
      ensures reply != Ok || Ready()
      ensures Answered(st, reply, old(Before(calls, sems, keys, stopping)), calls, stopping)
      ensures reply == Ok ==> shutdowns == old(shutdowns) + Asked(st)
      ensures reply == Ok ==> |calls| == |old(calls)|
    {
      if st.kind != StepShutdown {
        reply := DriveCall(st);
        return;
      }
      root := -1;
      var ok := Shutdown(st.expired);
      reply := if ok then Ok else Ambiguous;
    }

    /** drainShutdowns: a Shutdown returns once drained, or when its context is done. */
    method DrainShutdowns()
      requires Ready()
      modifies this`shutdowns
      ensures Ready() && Concluded(old(shutdowns), shutdowns, expired, Drained(), fixed)
    {
      var drained := true;
      for i := 0 to |calls|
        invariant drained <==> forall j :: 0 <= j < i ==> calls[j].phase != Parked && calls[j].phase != Holding
      {
        if calls[i].phase == Parked || calls[i].phase == Holding {
          drained := false;
        }
      }
      assert drained == Drained();
      for i := 0 to |shutdowns|
        invariant |shutdowns| == |old(shutdowns)|
        invariant forall j :: 0 <= j < i ==> shutdowns[j] == Resolved(old(shutdowns)[j], expired[j], drained, fixed)
        invariant forall j :: i <= j < |shutdowns| ==> shutdowns[j] == old(shutdowns)[j]
      {
        var sd := shutdowns[i];
        if sd.returned {
        } else if drained {
          sd := sd.(returned := true, either := expired[i] && !fixed);
        } else if expired[i] {
          sd := sd.(returned := true, cancelled := true);
        }
        shutdowns := shutdowns[i := sd];
      }
    }

    /** Apply: one driving step, and everything that follows from it. Ambiguous:
        two woken calls raced, or the shutdown did. */
    method Apply(st: Step) returns (reply: Reply)
      requires Ready() && (st.kind != StepShutdown ==> st.call < |calls|)
      modifies this
      ensures reply != Ok || (Ready() && |active| <= 1)
      ensures Answered(st, reply, old(Before(calls, sems, keys, stopping)), calls, stopping)
      ensures reply == Ok ==> Concluded(old(shutdowns) + Asked(st), shutdowns, expired, Drained(), fixed)
      ensures reply == Ok ==> |calls| == |old(calls)|
    {
      root, active, woken := st.call, {}, 0;
      reply := Drive(st);
      if reply != Ok {
        return;
      }
      if |active| > 1 {
        return Ambiguous;
      }
      DrainShutdowns();
    }

    /** The loop of Check: every step, in order, until one is not taken. What
        Ready says therefore holds after each step of a valid scenario. */
    method Replay(steps: seq<Step>) returns (ok: bool)
      requires Ready() && forall i :: 0 <= i < |steps| && steps[i].kind != StepShutdown ==> steps[i].call < |calls|
      modifies this
      ensures ok ==> Ready() && |calls| == |old(calls)|
    {
      for i := 0 to |steps|
        invariant Ready() && |calls| == |old(calls)|
      {
        var reply := Apply(steps[i]);
        if reply != Ok {
          return false;
        }
      }
      ok := true;
    }
  }

  /** What a step finds. */
  datatype Before = Before(calls: seq<SysCall>, sems: map<string, Semaphore>, keys: K.Table, stopping: bool)

  /** A step refused was not applicable; one taken leaves its call exactly
      where the attempts, the claims and the key free before it put it. */
  ghost predicate Answered(st: Step, reply: Reply, b: Before, calls: seq<SysCall>, stopping: bool) {
    if st.kind == StepShutdown then
      && reply != NotApplicable
      && (reply == Ok ==>
            stopping && (!b.stopping ==> forall i :: 0 <= i < |calls| ==> calls[i].phase != Parked))
    else
      st.call < |b.calls| && st.call < |calls| &&
      var c, d := b.calls[st.call], calls[st.call];
      match reply
      case Ambiguous => true
      case NotApplicable =>
        if st.kind == StepStart then c.phase != Idle
        else if st.kind == StepRelease then c.phase != Holding
        else c.phase != Parked && c.phase != Holding
      case Ok =>
        if st.kind == StepStart then
          && c.phase == Idle
          && if b.stopping then d == c.(phase := Done, res := STOPPED) else Follows(d, c, b.sems, b.keys)
        else if st.kind == StepRelease then c.phase == Holding && FollowsRelease(d, c)
        else if c.phase == Holding then FollowsCancel(d, c)
        else
          c.phase == Parked && d.phase == Done && d.res == CANCELED
  }

  /** A Shutdown step asks for one more. */
  function Asked(st: Step): seq<ShutdownView> {
    if st.kind == StepShutdown then [ShutdownView(false, false, false)] else []
  }

  predicate Concluded(before: seq<ShutdownView>, after: seq<ShutdownView>, expired: seq<bool>,
                      drained: bool, rules: bool) {
    && |after| == |before| == |expired|
    && forall i :: 0 <= i < |after| ==> after[i] == Resolved(before[i], expired[i], drained, rules)
  }

  /** What one Shutdown's view becomes after a step. */
  function Resolved(sd: ShutdownView, exp: bool, drained: bool, rules: bool): ShutdownView {
    if sd.returned then sd
    else if drained then sd.(returned := true, either := exp && !rules)
    else if exp then sd.(returned := true, cancelled := true)
    else sd
  }

  // ---------- what every driving step leaves ----------

  function HeldOf(r: string): SysCall -> int {
    (c: SysCall) => Units(c.claims, c.next, r)
  }

  lemma {:induction false} TotalsAgree<T, U>(xs: seq<T>, ys: seq<U>, f: T -> int, g: U -> int)
    requires |xs| == |ys| && forall i :: 0 <= i < |xs| ==> f(xs[i]) == g(ys[i])
    ensures Total(xs, f) == Total(ys, g)
  {
    if xs != [] {
      assert forall i :: 0 <= i < |xs[1..]| ==> xs[1..][i] == xs[i + 1] && ys[1..][i] == ys[i + 1];
      TotalsAgree(xs[1..], ys[1..], f, g);
    }
  }

  /** The ledger: between steps a semaphore's units in use are exactly the
      claims live calls hold, and within its capacity. */
  lemma UnitsAreHeld(sys: System, r: string)
    requires sys.Ready() && r in sys.sems
    ensures sys.sems[r].used == Total(sys.calls, HeldOf(r)) && 0 <= sys.sems[r].used <= sys.sems[r].cap
    ensures forall c :: 0 <= c < |sys.calls| && (sys.calls[c].phase == Idle || sys.calls[c].phase == Done) ==>
              HeldOf(r)(sys.calls[c]) == 0
  {
    forall i | 0 <= i < |sys.calls|
      ensures UnitsOf(r)(sys.stakes[i]) == HeldOf(r)(sys.calls[i])
      ensures sys.calls[i].phase == Idle || sys.calls[i].phase == Done ==> sys.calls[i].next == 0
    {
      assert StakeOk(sys.stakes[i]) && Closed(sys.stakes[i]);
    }
    TotalsAgree(sys.stakes, sys.calls, UnitsOf(r), HeldOf(r));
    assert SemOk(sys.sems[r]);
  }

  /** Key holders are exactly the calls that say they have their key. */
  lemma HoldersMatch(sys: System, k: string)
    requires sys.Ready()
    ensures k in sys.keys <==> exists c :: 0 <= c < |sys.calls| && sys.calls[c].hasKey && sys.calls[c].key == k
    ensures forall c :: 0 <= c < |sys.calls| && sys.calls[c].hasKey && sys.calls[c].key == k ==>
              k in sys.keys && sys.keys[k].holder == c
  {
    if k in sys.keys {
      assert EntryOk(sys.W(), k);
      var h := sys.keys[k].holder;
      assert sys.stakes[h].call == sys.calls[h] && Closed(sys.stakes[h]);
    }
    forall c: nat | c < |sys.calls| && sys.calls[c].hasKey && sys.calls[c].key == k
      ensures k in sys.keys && sys.keys[k].holder == c
    {
      assert StakeOk(sys.stakes[c]) && sys.stakes[c].call == sys.calls[c];
      assert HolderOk(sys.W(), c);
    }
  }

  /** No deadlock: a parked call means some call is holding. */
  lemma ParkedBehindHolder(sys: System, c: nat)
    requires sys.Ready() && c < |sys.calls| && sys.calls[c].phase == Parked
    ensures exists h :: 0 <= h < |sys.calls| && sys.calls[h].phase == Holding
  {
    ParkedMeansHolding(sys.W(), c);
    var h :| 0 <= h < |sys.stakes| && sys.stakes[h].call.phase == Holding;
    assert sys.calls[h].phase == Holding;
  }

  /** Every counter is exact: finished counts the admitted calls that are
      done, rejected the refusals, started and retried the attempts made. */
  lemma CountersAreExact(sys: System)
    requires sys.Ready()
    ensures Sums(sys.stakes) == Marks(sys.admitted, sys.rejected, sys.started, sys.finished, sys.retried)
    ensures sys.started <= sys.admitted && sys.finished <= sys.admitted
    ensures sys.Drained() ==> sys.finished == sys.admitted
  {
    forall i | 0 <= i < |sys.stakes|
      ensures FinishedOne(sys.stakes[i]) <= AdmittedOne(sys.stakes[i])
              && StartedOne(sys.stakes[i]) <= AdmittedOne(sys.stakes[i])
      ensures sys.Drained() ==> FinishedOne(sys.stakes[i]) == AdmittedOne(sys.stakes[i])
    {
      assert StakeOk(sys.stakes[i]) && PlayedOne(sys.stakes[i]) && sys.stakes[i].call == sys.calls[i];
    }
    TotalMonotone(sys.stakes, FinishedOne, AdmittedOne);
    TotalMonotone(sys.stakes, StartedOne, AdmittedOne);
    if sys.Drained() {
      TotalsAgree(sys.stakes, sys.stakes, FinishedOne, AdmittedOne);
    }
  }

  /** Only a Reject call is told it was overloaded, and under the fixed rules
      such a call never waits. */
  lemma RejectNeverWaits(sys: System, c: nat)
    requires sys.Ready() && c < |sys.calls| && sys.fixed
    ensures sys.calls[c].phase == Parked ==> !sys.calls[c].reject
    ensures sys.calls[c].phase == Done && Fresh(sys.calls[c].exec) && sys.calls[c].res == OVERLOADED ==>
              sys.calls[c].reject
  {
    assert PlayedOne(sys.stakes[c]) && sys.stakes[c].call == sys.calls[c] && Closed(sys.stakes[c]);
  }
}
