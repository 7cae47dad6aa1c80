/** The simulator's state as a value, and what each of its steps keeps. A
    semaphore charges a waiter before the waiter is woken, and a finished call
    gives back its claims one at a time, so between steps calls may be granted
    but not woken, on the move, or half released. */
module Cascade {
  import opened Sequences
  import opened Totals
  import opened Claims
  import opened Budgets
  import opened Sems
  import K = Keys
  import E = Execs

  datatype Phase = Idle | Parked | Holding | Done

  datatype SysCall = SysCall(
    phase: Phase, setup: E.Setup, reject: bool, keyed: bool, key: string, claims: seq<Claim>,
    next: nat, hasKey: bool, exec: E.State, res: E.Result)

  predicate NeedsKey(c: SysCall) {
    c.keyed && c.key != ""
  }

  predicate WaitsKey(c: SysCall) {
    NeedsKey(c) && !c.hasKey
  }

  /** Granted: its key or next claim is already charged to it, but it has not
      been woken. Moving: some method is driving it right now. */
  datatype Status = Resting | Granted | Moving

  /** A call with what the cascade owes it: charged counts its claims that
      semaphores have charged and not been given back. */
  datatype Stake = Stake(call: SysCall, st: Status, charged: nat, admitted: bool)

  datatype World = World(stakes: seq<Stake>, sems: map<string, Semaphore>, keys: K.Table)

  // ---------- calls ----------

  predicate ClaimsOk(c: SysCall, sems: map<string, Semaphore>) {
    Ascending(c.claims)
    && forall i :: 0 <= i < |c.claims| ==> c.claims[i].r in sems && 0 < c.claims[i].n <= sems[c.claims[i].r].cap
  }

  /** The wait of a parked call: for its key first, then for claim `next`. */
  predicate AtAWait(c: SysCall) {
    if WaitsKey(c) then c.next == 0 else c.next < |c.claims|
  }

  predicate StakeOk(x: Stake) {
    var c := x.call;
    && c.next <= |c.claims| && x.charged <= |c.claims|
    && (c.hasKey ==> NeedsKey(c))
    && match x.st
       case Moving => c.phase != Done && x.charged == c.next && (c.next > 0 ==> !WaitsKey(c)) && x.admitted
       case Granted =>
         c.phase == Parked && AtAWait(c) && x.charged == (if WaitsKey(c) then 0 else c.next + 1) && x.admitted
       case Resting =>
         match c.phase
         case Idle => c.next == 0 && !c.hasKey && x.charged == 0 && !x.admitted
         case Parked => AtAWait(c) && x.charged == c.next && x.admitted
         case Holding => x.charged == c.next == |c.claims| && !WaitsKey(c) && x.admitted
         case Done => c.next == 0
  }

  /** A finished call that has given everything back. */
  predicate Closed(x: Stake) {
    x.call.phase == Done ==> x.charged == 0 && !x.call.hasKey
  }

  predicate StakesOk(w: World) {
    forall i :: 0 <= i < |w.stakes| ==> ClaimsOk(w.stakes[i].call, w.sems) && StakeOk(w.stakes[i])
  }

  // ---------- semaphores ----------

  function UnitsOf(r: string): Stake -> int {
    (x: Stake) => Units(x.call.claims, x.charged, r)
  }

  predicate Ledger(w: World) {
    forall r :: r in w.sems ==> w.sems[r].used == Total(w.stakes, UnitsOf(r))
  }

  predicate Queued(x: Stake) {
    x.call.phase == Parked && x.st == Resting && !WaitsKey(x.call) && x.call.next < |x.call.claims|
  }

  predicate QueuedOn(x: Stake, r: string) {
    Queued(x) && x.call.claims[x.call.next].r == r
  }

  predicate TicketOk(w: World, r: string, t: Ticket<int>) {
    && 0 <= t.id < |w.stakes| && QueuedOn(w.stakes[t.id], r)
    && t.n == w.stakes[t.id].call.claims[w.stakes[t.id].call.next].n
  }

  predicate QueueOk(w: World, r: string)
    requires r in w.sems
  {
    var q := w.sems[r].queue;
    && (forall k :: 0 <= k < |q| ==> TicketOk(w, r, q[k]))
    && (forall j, k :: 0 <= j < k < |q| ==> q[j].id != q[k].id)
    && (forall c {:trigger InQueue(q, c)} :: 0 <= c < |w.stakes| && QueuedOn(w.stakes[c], r) ==> InQueue(q, c))
  }

  predicate Queues(w: World) {
    forall r :: r in w.sems ==> QueueOk(w, r)
  }

  /** The semaphore as an open budget: what holds inside an operation. */
  predicate SemOk(s: Semaphore) {
    && 0 <= s.used <= s.cap && 0 < s.cap && 2 * s.cap <= MAX_INT64
    && forall i :: 0 <= i < |s.queue| ==> 0 < s.queue[i].n <= s.cap
  }

  predicate SemsOk(w: World) {
    forall r :: r in w.sems ==> SemOk(w.sems[r])
  }

  /** Nothing more can be granted, except perhaps on r. */
  predicate SettledBut(w: World, r: string) {
    forall p :: p in w.sems && p != r ==> !w.sems[p].HeadFits()
  }

  predicate Settled(w: World) {
    forall p :: p in w.sems ==> !w.sems[p].HeadFits()
  }

  predicate Core(w: World) {
    StakesOk(w) && Ledger(w) && Queues(w) && SemsOk(w)
  }

  // ---------- one stake changes ----------

  predicate SameOperation(x: Stake, y: Stake) {
    x.call.claims == y.call.claims && x.call.key == y.call.key && x.call.keyed == y.call.keyed
    && x.call.reject == y.call.reject && x.call.setup == y.call.setup
  }

  predicate SameCaps(w: World, v: World) {
    w.sems.Keys == v.sems.Keys && forall r :: r in w.sems ==> w.sems[r].cap == v.sems[r].cap
  }

  predicate OneStake(w: World, v: World, c: nat) {
    && c < |w.stakes| && c < |v.stakes| && v.stakes == w.stakes[c := v.stakes[c]]
    && SameOperation(w.stakes[c], v.stakes[c])
  }

  lemma StakesKept(w: World, v: World, c: nat)
    requires StakesOk(w) && SameCaps(w, v) && OneStake(w, v, c) && StakeOk(v.stakes[c])
    ensures StakesOk(v)
  {
    forall i | 0 <= i < |v.stakes|
      ensures ClaimsOk(v.stakes[i].call, v.sems) && StakeOk(v.stakes[i])
    {
      assert ClaimsOk(w.stakes[i].call, w.sems) && StakeOk(w.stakes[i]);
    }
  }

  /** y is charged n units of r more than x. */
  ghost predicate Recharged(x: Stake, y: Stake, r: string, n: int) {
    forall p :: UnitsOf(p)(y) == UnitsOf(p)(x) + if p == r then n else 0
  }

  lemma SameCharge(x: Stake, y: Stake)
    requires y.call.claims == x.call.claims && y.charged == x.charged
    ensures Recharged(x, y, "", 0)
  {
  }

  lemma OneMoreCharge(x: Stake, y: Stake)
    requires y.call.claims == x.call.claims && y.charged == x.charged + 1 <= |x.call.claims|
    ensures var cl := x.call.claims[x.charged]; Recharged(x, y, cl.r, cl.n) && Recharged(y, x, cl.r, -cl.n)
  {
    var cl := x.call.claims[x.charged];
    forall p
      ensures UnitsOf(p)(y) == UnitsOf(p)(x) + if p == cl.r then cl.n else 0
    {
      UnitsStep(x.call.claims, x.charged, p);
    }
  }

  lemma UnitsStep(cs: seq<Claim>, i: nat, r: string)
    requires i < |cs|
    ensures Units(cs, i + 1, r) == Units(cs, i, r) + if cs[i].r == r then cs[i].n else 0
  {
  }

  /** Units charged to r and to the call on the same step balance. */
  lemma LedgerKept(w: World, v: World, c: nat, r: string, n: int)
    requires Ledger(w) && SameCaps(w, v) && OneStake(w, v, c)
    requires forall p :: p in w.sems ==> v.sems[p].used == w.sems[p].used + if p == r then n else 0
    requires Recharged(w.stakes[c], v.stakes[c], r, n)
    ensures Ledger(v)
  {
    forall p | p in v.sems
      ensures v.sems[p].used == Total(v.stakes, UnitsOf(p))
    {
      TotalUpdate(w.stakes, c, v.stakes[c], UnitsOf(p));
    }
  }

  /** The queue of p is unchanged and the call neither joins nor leaves it. */
  lemma QueueKept(w: World, v: World, c: nat, p: string)
    requires p in w.sems && p in v.sems && QueueOk(w, p) && v.sems[p].queue == w.sems[p].queue
    requires OneStake(w, v, c)
    requires QueuedOn(v.stakes[c], p) == QueuedOn(w.stakes[c], p)
    requires QueuedOn(w.stakes[c], p) ==> v.stakes[c].call.next == w.stakes[c].call.next
    ensures QueueOk(v, p)
  {
    var q := v.sems[p].queue;
    forall k | 0 <= k < |q|
      ensures TicketOk(v, p, q[k])
    {
      assert TicketOk(w, p, w.sems[p].queue[k]);
    }
    forall i | 0 <= i < |v.stakes| && QueuedOn(v.stakes[i], p)
      ensures InQueue(q, i)
    {
      assert InQueue(w.sems[p].queue, i);
    }
  }

  /** n more units of r are in use, and nothing else differs. */
  predicate UsedShifts(w: World, v: World, r: string, n: int) {
    w.sems.Keys == v.sems.Keys
    && forall p :: p in w.sems ==> v.sems[p] == w.sems[p].(used := w.sems[p].used + if p == r then n else 0)
  }

  lemma CoreKept(w: World, v: World, c: nat, r: string, n: int)
    requires Core(w) && SameCaps(w, v) && OneStake(w, v, c) && StakeOk(v.stakes[c])
    requires UsedShifts(w, v, r, n)
    requires r in w.sems ==> 0 <= w.sems[r].used + n <= w.sems[r].cap
    requires Recharged(w.stakes[c], v.stakes[c], r, n)
    requires !Queued(w.stakes[c]) && !Queued(v.stakes[c])
    ensures Core(v)
  {
    StakesKept(w, v, c);
    LedgerKept(w, v, c, r, n);
    forall p | p in v.sems
      ensures QueueOk(v, p)
    {
      assert QueueOk(w, p);
      QueueKept(w, v, c, p);
    }
  }

  // ---------- granting ----------

  function WithStake(w: World, c: nat, x: Stake): World
    requires c < |w.stakes|
  {
    w.(stakes := w.stakes[c := x])
  }

  function Grant1(x: Stake): Stake {
    x.(st := Granted, charged := x.charged + 1)
  }

  /** The head of r's queue is charged and marked granted. */
  function GrantHead(w: World, r: string): World
    requires r in w.sems && w.sems[r].queue != []
  {
    var c := w.sems[r].queue[0].id;
    var v := w.(sems := w.sems[r := w.sems[r].Pop()]);
    if 0 <= c < |w.stakes| then WithStake(v, c, Grant1(w.stakes[c])) else v
  }

  function GrantAll(w: World, r: string): World
    requires r in w.sems
    decreases |w.sems[r].queue|
  {
    if w.sems[r].HeadFits() then GrantAll(GrantHead(w, r), r) else w
  }

  lemma GrantedOk(x: Stake, r: string)
    requires StakeOk(x) && QueuedOn(x, r)
    ensures StakeOk(Grant1(x)) && !Queued(Grant1(x))
    ensures Recharged(x, Grant1(x), r, x.call.claims[x.call.next].n)
  {
    OneMoreCharge(x, Grant1(x));
  }

  /** The head of r's queue, and only it, has stopped waiting. */
  lemma HeadGone(w: World, v: World, r: string, p: string)
    requires r in w.sems && w.sems[r].queue != [] && p in w.sems && p in v.sems
    requires QueueOk(w, r) && QueueOk(w, p)
    requires v.sems[p].queue == if p == r then w.sems[p].queue[1..] else w.sems[p].queue
    requires var c := w.sems[r].queue[0].id; c >= 0 && OneStake(w, v, c) && !Queued(v.stakes[c])
    ensures QueueOk(v, p)
  {
    assert TicketOk(w, r, w.sems[r].queue[0]);
    var q := v.sems[p].queue;
    forall k | 0 <= k < |q|
      ensures TicketOk(v, p, q[k])
    {
      var k' := if p == r then k + 1 else k;
      assert q[k] == w.sems[p].queue[k'] && TicketOk(w, p, w.sems[p].queue[k']);
    }
    forall c | 0 <= c < |v.stakes| && QueuedOn(v.stakes[c], p)
      ensures InQueue(q, c)
    {
      assert InQueue(w.sems[p].queue, c);
      var k :| 0 <= k < |w.sems[p].queue| && w.sems[p].queue[k].id == c;
      if p == r {
        assert q[k - 1].id == c;
      }
    }
  }

  lemma GrantHeadKeepsCore(w: World, r: string)
    requires Core(w) && r in w.sems && w.sems[r].HeadFits()
    ensures Core(GrantHead(w, r))
  {
    var v := GrantHead(w, r);
    var t := w.sems[r].queue[0];
    assert QueueOk(w, r) && TicketOk(w, r, t) && SemOk(w.sems[r]);
    assert Wrap(w.sems[r].used + t.n) == w.sems[r].used + t.n;
    GrantedOk(w.stakes[t.id], r);
    StakesKept(w, v, t.id);
    LedgerKept(w, v, t.id, r, t.n);
    forall p | p in v.sems
      ensures QueueOk(v, p) && SemOk(v.sems[p])
    {
      assert QueueOk(w, p) && SemOk(w.sems[p]);
      HeadGone(w, v, r, p);
    }
  }

  /** What granting did: only queued calls were touched, all now granted. */
  predicate OnlyGranted(w: World, v: World) {
    && |v.stakes| == |w.stakes| && v.keys == w.keys && SameCaps(w, v)
    && forall i :: 0 <= i < |w.stakes| ==>
         v.stakes[i] == w.stakes[i] || (Queued(w.stakes[i]) && v.stakes[i] == Grant1(w.stakes[i]))
  }

  /** One grant: the head, queued till now, is granted; the rest is untouched. */
  lemma GrantHeadShape(w: World, r: string)
    requires Core(w) && r in w.sems && w.sems[r].HeadFits() && SettledBut(w, r)
    ensures var c := w.sems[r].queue[0].id; var v := GrantHead(w, r);
            0 <= c < |w.stakes| && Queued(w.stakes[c]) && v.stakes == w.stakes[c := Grant1(w.stakes[c])]
            && v.sems == w.sems[r := w.sems[r].Pop()]
            && SettledBut(v, r) && OnlyGranted(w, v)
  {
    assert QueueOk(w, r) && TicketOk(w, r, w.sems[r].queue[0]);
  }

  lemma {:induction false} GrantAllKeepsCore(w: World, r: string)
    requires Core(w) && r in w.sems && SettledBut(w, r)
    ensures Core(GrantAll(w, r)) && Settled(GrantAll(w, r))
    decreases |w.sems[r].queue|
  {
    if w.sems[r].HeadFits() {
      GrantHeadKeepsCore(w, r);
      GrantHeadShape(w, r);
      GrantAllKeepsCore(GrantHead(w, r), r);
    }
  }

  lemma {:induction false} GrantAllOnlyGrants(w: World, r: string)
    requires Core(w) && r in w.sems && SettledBut(w, r)
    ensures OnlyGranted(w, GrantAll(w, r))
    decreases |w.sems[r].queue|
  {
    if w.sems[r].HeadFits() {
      GrantHeadKeepsCore(w, r);
      GrantHeadShape(w, r);
      GrantAllOnlyGrants(GrantHead(w, r), r);
      GrantsChain(w, GrantHead(w, r), GrantAll(w, r));
    }
  }

  lemma GrantsChain(w: World, v: World, u: World)
    requires OnlyGranted(w, v) && OnlyGranted(v, u)
    ensures OnlyGranted(w, u)
  {
    forall i | 0 <= i < |w.stakes|
      ensures u.stakes[i] == w.stakes[i] || (Queued(w.stakes[i]) && u.stakes[i] == Grant1(w.stakes[i]))
    {
      assert v.stakes[i] == w.stakes[i] || (Queued(w.stakes[i]) && v.stakes[i] == Grant1(w.stakes[i]));
      assert u.stakes[i] == v.stakes[i] || (Queued(v.stakes[i]) && u.stakes[i] == Grant1(v.stakes[i]));
    }
  }

  /** Every waiter the semaphore reports is now granted, and it reports each once. */
  predicate Reported(w: World, v: World, ids: seq<int>) {
    && |v.stakes| == |w.stakes|
    && (forall j :: 0 <= j < |ids| ==> GrantedNow(w, v, ids[j]))
    && (forall i, j :: 0 <= i < j < |ids| ==> ids[i] != ids[j])
    && (forall i :: 0 <= i < |w.stakes| && i !in ids ==> v.stakes[i] == w.stakes[i])
  }

  predicate GrantedNow(w: World, v: World, c: int) {
    0 <= c < |w.stakes| && c < |v.stakes| && Queued(w.stakes[c]) && v.stakes[c] == Grant1(w.stakes[c])
  }

  lemma {:induction false} GrantAllSems(w: World, r: string)
    requires r in w.sems
    ensures GrantAll(w, r).sems == w.sems[r := w.sems[r].Grant().0]
    decreases |w.sems[r].queue|
  {
    if w.sems[r].HeadFits() {
      GrantAllSems(GrantHead(w, r), r);
    }
  }

  lemma {:induction false} GrantAllReports(w: World, r: string)
    requires Core(w) && r in w.sems && SettledBut(w, r)
    ensures Reported(w, GrantAll(w, r), w.sems[r].Grant().1)
    decreases |w.sems[r].queue|
  {
    if w.sems[r].HeadFits() {
      var v := GrantHead(w, r);
      GrantHeadKeepsCore(w, r);
      GrantHeadShape(w, r);
      GrantAllReports(v, r);
      OneMoreReported(w, v, GrantAll(v, r), w.sems[r].queue[0].id, v.sems[r].Grant().1);
    }
  }

  lemma OneMoreReported(w: World, v: World, u: World, c: int, ids: seq<int>)
    requires 0 <= c < |w.stakes| && v.stakes == w.stakes[c := Grant1(w.stakes[c])] && Queued(w.stakes[c])
    requires Reported(v, u, ids)
    ensures Reported(w, u, [c] + ids)
  {
    var all := [c] + ids;
    forall j | 0 <= j < |all|
      ensures GrantedNow(w, u, all[j])
      ensures j > 0 ==> all[j] != c
    {
      if j > 0 {
        assert all[j] == ids[j - 1] && GrantedNow(v, u, ids[j - 1]);
      } else {
        assert c !in ids by {
          assert forall k :: 0 <= k < |ids| ==> GrantedNow(v, u, ids[k]);
        }
      }
    }
    forall i | 0 <= i < |w.stakes| && i !in all
      ensures u.stakes[i] == w.stakes[i]
    {
      assert i != c by { assert all[0] == c; }
      assert i !in ids by { assert forall j :: 0 <= j < |ids| ==> all[j + 1] == ids[j]; }
    }
  }

  // ---------- keys ----------

  /** Holds its key, or has been handed it and not yet woken. */
  predicate Owns(x: Stake) {
    NeedsKey(x.call) && (x.call.hasKey || x.st == Granted)
  }

  predicate AwaitsKey(x: Stake) {
    x.call.phase == Parked && x.st == Resting && WaitsKey(x.call)
  }

  predicate EntryOk(w: World, k: string)
    requires k in w.keys
  {
    var e := w.keys[k];
    && 0 <= e.holder < |w.stakes| && Owns(w.stakes[e.holder]) && w.stakes[e.holder].call.key == k
    && (forall j :: 0 <= j < |e.queue| ==> KeyWaiter(w, k, e.queue[j]))
    && (forall i, j :: 0 <= i < j < |e.queue| ==> e.queue[i] != e.queue[j])
  }

  predicate KeyWaiter(w: World, k: string, c: int) {
    0 <= c < |w.stakes| && AwaitsKey(w.stakes[c]) && w.stakes[c].call.key == k
  }

  predicate HolderOk(w: World, c: nat)
    requires c < |w.stakes|
  {
    var k := w.stakes[c].call.key;
    k in w.keys && w.keys[k].holder == c
  }

  predicate WaiterOk(w: World, c: nat)
    requires c < |w.stakes|
  {
    var k := w.stakes[c].call.key;
    k in w.keys && c in w.keys[k].queue
  }

  predicate KeysOk(w: World) {
    && (forall k :: k in w.keys ==> EntryOk(w, k))
    && (forall c: nat {:trigger HolderOk(w, c)} :: c < |w.stakes| && Owns(w.stakes[c]) ==> HolderOk(w, c))
    && (forall c: nat {:trigger WaiterOk(w, c)} :: c < |w.stakes| && AwaitsKey(w.stakes[c]) ==> WaiterOk(w, c))
  }

  predicate KeyQuiet(x: Stake, y: Stake) {
    x.call.key == y.call.key && Owns(x) == Owns(y) && AwaitsKey(x) == AwaitsKey(y)
  }

  lemma KeyQuietMoves(w: World, v: World)
    requires KeysOk(w) && v.keys == w.keys && |v.stakes| == |w.stakes|
    requires forall i :: 0 <= i < |w.stakes| ==> KeyQuiet(w.stakes[i], v.stakes[i])
    ensures KeysOk(v)
  {
    forall k | k in v.keys
      ensures EntryOk(v, k)
    {
      assert EntryOk(w, k);
      forall j | 0 <= j < |v.keys[k].queue|
        ensures KeyWaiter(v, k, v.keys[k].queue[j])
      {
        assert KeyWaiter(w, k, w.keys[k].queue[j]);
      }
    }
    forall c: nat | c < |v.stakes|
      ensures Owns(v.stakes[c]) ==> HolderOk(v, c)
      ensures AwaitsKey(v.stakes[c]) ==> WaiterOk(v, c)
    {
      assert KeyQuiet(w.stakes[c], v.stakes[c]);
      assert Owns(w.stakes[c]) ==> HolderOk(w, c);
      assert AwaitsKey(w.stakes[c]) ==> WaiterOk(w, c);
    }
  }

  lemma KeyQuietMove(w: World, v: World, c: nat)
    requires KeysOk(w) && v.keys == w.keys && OneStake(w, v, c) && KeyQuiet(w.stakes[c], v.stakes[c])
    ensures KeysOk(v)
  {
    KeyQuietMoves(w, v);
  }

  /** What every method of the simulator keeps. */
  predicate Good(w: World) {
    Core(w) && Settled(w) && KeysOk(w)
  }

  // ---------- steps that only move one call ----------

  /** Nothing the semaphores or the keys care about differs. */
  predicate Quiet(x: Stake, y: Stake) {
    SameOperation(x, y) && x.charged == y.charged && !Queued(x) && !Queued(y) && KeyQuiet(x, y) && StakeOk(y)
  }

  lemma QuietKeepsGood(w: World, c: nat, x: Stake)
    requires Good(w) && c < |w.stakes| && Quiet(w.stakes[c], x)
    ensures Good(WithStake(w, c, x))
  {
    SameCharge(w.stakes[c], x);
    CoreKept(w, WithStake(w, c, x), c, "", 0);
    KeyQuietMove(w, WithStake(w, c, x), c);
  }

  /** A granted call is told: it now has its key or its next claim. */
  function Woken(x: Stake): Stake {
    x.(st := Moving,
       call := if WaitsKey(x.call) then x.call.(hasKey := true) else x.call.(next := x.call.next + 1))
  }

  /** Done, with its claims still to give back. */
  function Finishing(x: Stake, res: E.Result): Stake {
    x.(st := Resting, call := x.call.(phase := Done, res := res, next := 0))
  }

  lemma WakingIsQuiet(x: Stake)
    requires StakeOk(x) && x.st == Granted
    ensures Quiet(x, Woken(x))
  {
  }

  lemma FinishingIsQuiet(x: Stake, res: E.Result)
    requires StakeOk(x) && x.st == Moving
    ensures Quiet(x, Finishing(x, res))
  {
  }

  // ---------- claims ----------

  /** The next claim of a moving call. */
  function NextClaim(x: Stake): Claim
    requires x.call.next < |x.call.claims|
  {
    x.call.claims[x.call.next]
  }

  predicate AtClaim(w: World, c: nat) {
    c < |w.stakes| && w.stakes[c].st == Moving && w.stakes[c].call.next < |w.stakes[c].call.claims|
    && !WaitsKey(w.stakes[c].call) && NextClaim(w.stakes[c]).r in w.sems
  }

  /** The next claim fits and is taken. */
  function TakeClaim(w: World, c: nat): World
    requires AtClaim(w, c)
  {
    var x := w.stakes[c];
    var cl := NextClaim(x);
    WithStake(w, c, x.(charged := x.charged + 1, call := x.call.(next := x.call.next + 1)))
      .(sems := w.sems[cl.r := w.sems[cl.r].TryAcquire(cl.n).0])
  }

  lemma TakeClaimKeepsGood(w: World, c: nat)
    requires Good(w) && AtClaim(w, c) && w.sems[NextClaim(w.stakes[c]).r].TryAcquire(NextClaim(w.stakes[c]).n).1
    ensures Good(TakeClaim(w, c))
  {
    TakeClaimKeepsCore(w, c);
    KeyQuietMove(w, TakeClaim(w, c), c);
  }

  lemma TakenSem(s: Semaphore, n: int)
    requires SemOk(s) && 0 < n <= s.cap && s.TryAcquire(n).1
    ensures var t := s.TryAcquire(n).0; t == s.(used := s.used + n) && t.used <= t.cap && !t.HeadFits()
  {
    assert Wrap(s.used + n) == s.used + n;
  }

  lemma TakeClaimKeepsCore(w: World, c: nat)
    requires Core(w) && Settled(w) && AtClaim(w, c)
    requires w.sems[NextClaim(w.stakes[c]).r].TryAcquire(NextClaim(w.stakes[c]).n).1
    ensures Core(TakeClaim(w, c)) && Settled(TakeClaim(w, c))
  {
    var x, v := w.stakes[c], TakeClaim(w, c);
    var cl := NextClaim(x);
    assert ClaimsOk(x.call, w.sems) && StakeOk(x) && SemOk(w.sems[cl.r]);
    TakenSem(w.sems[cl.r], cl.n);
    OneMoreCharge(x, v.stakes[c]);
    TakeMoves(w, c);
    CoreKept(w, v, c, cl.r, cl.n);
  }

  lemma TakeMoves(w: World, c: nat)
    requires AtClaim(w, c) && StakeOk(w.stakes[c])
    requires var cl := NextClaim(w.stakes[c]); var s := w.sems[cl.r]; s.TryAcquire(cl.n).0 == s.(used := s.used + cl.n)
    ensures var v := TakeClaim(w, c); var cl := NextClaim(w.stakes[c]);
            && SameCaps(w, v) && OneStake(w, v, c) && StakeOk(v.stakes[c])
            && !Queued(w.stakes[c]) && !Queued(v.stakes[c])
            && UsedShifts(w, v, cl.r, cl.n)
  {
  }

  /** The next claim does not fit: the call queues for it. */
  function ParkOnClaim(w: World, c: nat): World
    requires AtClaim(w, c)
  {
    var x := w.stakes[c];
    var cl := NextClaim(x);
    WithStake(w, c, x.(st := Resting, call := x.call.(phase := Parked)))
      .(sems := w.sems[cl.r := w.sems[cl.r].Acquire(c, cl.n).0])
  }

  lemma ParkOnClaimKeepsGood(w: World, c: nat)
    requires Good(w) && AtClaim(w, c) && !w.sems[NextClaim(w.stakes[c]).r].TryAcquire(NextClaim(w.stakes[c]).n).1
    ensures Good(ParkOnClaim(w, c))
  {
    ParkedSem(w, c);
    ParkOnClaimKeepsStakes(w, c);
    ParkOnClaimKeepsQueues(w, c);
    KeyQuietMove(w, ParkOnClaim(w, c), c);
  }

  /** The semaphore only gains the ticket, and stays settled. */
  lemma ParkedSem(w: World, c: nat)
    requires Core(w) && Settled(w) && AtClaim(w, c)
    requires !w.sems[NextClaim(w.stakes[c]).r].TryAcquire(NextClaim(w.stakes[c]).n).1
    ensures var cl := NextClaim(w.stakes[c]); var v := ParkOnClaim(w, c); var s := w.sems[cl.r];
            v.sems == w.sems[cl.r := s.(queue := s.queue + [Ticket(c, cl.n)])]
    ensures SemsOk(ParkOnClaim(w, c)) && Settled(ParkOnClaim(w, c))
  {
    var cl := NextClaim(w.stakes[c]);
    assert ClaimsOk(w.stakes[c].call, w.sems);
    ParkedHeadStays(w.sems[cl.r], c, cl.n);
  }

  lemma ParkOnClaimKeepsStakes(w: World, c: nat)
    requires StakesOk(w) && Ledger(w) && AtClaim(w, c)
    requires var cl := NextClaim(w.stakes[c]); var s := w.sems[cl.r];
             ParkOnClaim(w, c).sems == w.sems[cl.r := s.(queue := s.queue + [Ticket(c, cl.n)])]
    ensures StakesOk(ParkOnClaim(w, c)) && Ledger(ParkOnClaim(w, c))
  {
    var v := ParkOnClaim(w, c);
    assert StakeOk(w.stakes[c]);
    StakesKept(w, v, c);
    SameCharge(w.stakes[c], v.stakes[c]);
    LedgerKept(w, v, c, "", 0);
  }

  lemma ParkOnClaimKeepsQueues(w: World, c: nat)
    requires Queues(w) && AtClaim(w, c) && StakeOk(w.stakes[c])
    requires var cl := NextClaim(w.stakes[c]); var s := w.sems[cl.r];
             ParkOnClaim(w, c).sems == w.sems[cl.r := s.(queue := s.queue + [Ticket(c, cl.n)])]
    ensures Queues(ParkOnClaim(w, c))
  {
    var v, r := ParkOnClaim(w, c), NextClaim(w.stakes[c]).r;
    forall p | p in v.sems
      ensures QueueOk(v, p)
    {
      assert QueueOk(w, p);
      if p == r {
        Enqueued(w, v, c, p);
      } else {
        QueueKept(w, v, c, p);
      }
    }
  }

  lemma ParkedHeadStays(s: Semaphore, c: int, n: int)
    requires SemOk(s) && 0 < n <= s.cap && !s.HeadFits() && !s.TryAcquire(n).1
    ensures SemOk(s.Acquire(c, n).0) && !s.Acquire(c, n).0.HeadFits()
  {
    assert s.queue != [] ==> (s.queue + [Ticket(c, n)])[0] == s.queue[0];
  }

  lemma Enqueued(w: World, v: World, c: nat, r: string)
    requires r in w.sems && r in v.sems && QueueOk(w, r) && OneStake(w, v, c)
    requires !Queued(w.stakes[c]) && QueuedOn(v.stakes[c], r)
    requires v.sems[r].queue == w.sems[r].queue + [Ticket(c, NextClaim(v.stakes[c]).n)]
    ensures QueueOk(v, r)
  {
    var q, q' := w.sems[r].queue, v.sems[r].queue;
    forall k | 0 <= k < |q'|
      ensures TicketOk(v, r, q'[k])
      ensures k < |q| ==> q'[k].id != c
    {
      if k < |q| {
        assert q'[k] == q[k] && TicketOk(w, r, q[k]);
      }
    }
    forall i | 0 <= i < |v.stakes| && QueuedOn(v.stakes[i], r)
      ensures InQueue(q', i)
    {
      if i == c {
        assert q'[|q|].id == c;
      } else {
        assert InQueue(q, i);
        var k :| 0 <= k < |q| && q[k].id == i;
        assert q'[k].id == i;
      }
    }
  }

  // ---------- giving back ----------

  /** A finished call with claims to give back. */
  predicate Owes(w: World, c: nat) {
    c < |w.stakes| && w.stakes[c].call.phase == Done && 0 < w.stakes[c].charged <= |w.stakes[c].call.claims|
    && LastClaim(w.stakes[c]).r in w.sems
  }

  function LastClaim(x: Stake): Claim
    requires 0 < x.charged <= |x.call.claims|
  {
    x.call.claims[x.charged - 1]
  }

  /** The units are back; waiters not yet served. */
  function PutBack(w: World, c: nat): World
    requires Owes(w, c)
  {
    var x := w.stakes[c];
    var cl := LastClaim(x);
    WithStake(w, c, x.(charged := x.charged - 1))
      .(sems := w.sems[cl.r := w.sems[cl.r].(used := w.sems[cl.r].used - cl.n)])
  }

  /** What a call is charged for is in use. */
  lemma ChargedIsInUse(w: World, c: nat, j: nat)
    requires Core(w) && c < |w.stakes| && j < w.stakes[c].charged
    ensures StakeOk(w.stakes[c]) && j < |w.stakes[c].call.claims|
    ensures var cl := w.stakes[c].call.claims[j]; cl.r in w.sems && 0 < cl.n <= w.sems[cl.r].used
  {
    var x := w.stakes[c];
    assert ClaimsOk(x.call, w.sems) && StakeOk(x);
    var r := x.call.claims[j].r;
    UnitsHeld(x.call.claims, x.charged, j);
    forall i | 0 <= i < |w.stakes|
      ensures UnitsOf(r)(w.stakes[i]) >= 0
    {
      assert ClaimsOk(w.stakes[i].call, w.sems);
      UnitsBounds(w.stakes[i].call.claims, w.stakes[i].charged, r);
    }
    TotalAtLeast(w.stakes, c, UnitsOf(r));
  }

  lemma PutBackKeepsCore(w: World, c: nat)
    requires Core(w) && Settled(w) && Owes(w, c)
    ensures Core(PutBack(w, c)) && SettledBut(PutBack(w, c), LastClaim(w.stakes[c]).r)
    ensures LastClaim(w.stakes[c]).n <= w.sems[LastClaim(w.stakes[c]).r].used
  {
    var x, v := w.stakes[c], PutBack(w, c);
    var cl := LastClaim(x);
    ChargedIsInUse(w, c, x.charged - 1);
    UsedIsBounded(w, cl.r);
    OneMoreCharge(v.stakes[c], x);
    PutBackMoves(w, c);
    CoreKept(w, v, c, cl.r, -cl.n);
  }

  lemma PutBackMoves(w: World, c: nat)
    requires Owes(w, c) && StakeOk(w.stakes[c])
    ensures var v := PutBack(w, c); var cl := LastClaim(w.stakes[c]);
            && SameCaps(w, v) && OneStake(w, v, c) && StakeOk(v.stakes[c])
            && !Queued(w.stakes[c]) && !Queued(v.stakes[c])
            && UsedShifts(w, v, cl.r, -cl.n)
  {
  }

  lemma UsedIsBounded(w: World, r: string)
    requires SemsOk(w) && r in w.sems
    ensures 0 <= w.sems[r].used <= w.sems[r].cap
  {
    assert SemOk(w.sems[r]);
  }

  lemma GrantsAreKeyQuiet(w: World, v: World)
    requires KeysOk(w) && OnlyGranted(w, v)
    ensures KeysOk(v)
  {
    forall i | 0 <= i < |w.stakes|
      ensures KeyQuiet(w.stakes[i], v.stakes[i])
    {
      assert v.stakes[i] == w.stakes[i] || (Queued(w.stakes[i]) && v.stakes[i] == Grant1(w.stakes[i]));
    }
    KeyQuietMoves(w, v);
  }

  lemma ReleaseIsGrant(s: Semaphore, n: int)
    ensures s.Release(n) == s.(used := s.used - n).Grant()
  {
  }

  lemma TwiceSet(m: map<string, Semaphore>, r: string, a: Semaphore, b: Semaphore)
    ensures m[r := a][r := b] == m[r := b]
  {
  }
}
