/** The simulator's steps on keys, withdrawals, and why a parked call always
    leaves somebody holding. */
module CascadeKeys {
  import opened Sequences
  import opened Totals
  import opened Claims
  import opened Sems
  import opened Cascade
  import B = Budgets
  import K = Keys
  import E = Execs

  // ---------- taking a key ----------

  predicate AtKey(w: World, c: nat) {
    c < |w.stakes| && w.stakes[c].st == Moving && WaitsKey(w.stakes[c].call)
  }

  function TakeKey(w: World, c: nat): World
    requires AtKey(w, c)
  {
    var x := w.stakes[c];
    WithStake(w, c, x.(call := x.call.(hasKey := true))).(keys := K.Acquire(w.keys, c, x.call.key).0)
  }

  function ParkOnKey(w: World, c: nat): World
    requires AtKey(w, c)
  {
    var x := w.stakes[c];
    WithStake(w, c, x.(st := Resting, call := x.call.(phase := Parked))).(keys := K.Acquire(w.keys, c, x.call.key).0)
  }

  /** The core does not see a call that neither queues nor is charged. */
  lemma CoreQuiet(w: World, v: World, c: nat)
    requires Core(w) && Settled(w) && v.sems == w.sems && OneStake(w, v, c) && StakeOk(v.stakes[c])
    requires v.stakes[c].charged == w.stakes[c].charged && !Queued(w.stakes[c]) && !Queued(v.stakes[c])
    ensures Core(v) && Settled(v)
  {
    SameCharge(w.stakes[c], v.stakes[c]);
    CoreKept(w, v, c, "", 0);
  }

  /** Entries, holders and waiters of keys other than k carry over. */
  lemma OtherKey(w: World, v: World, c: nat, p: string)
    requires KeysOk(w) && p in w.keys && p in v.keys && v.keys[p] == w.keys[p] && OneStake(w, v, c)
    requires w.stakes[c].call.key == p ==> !Owns(w.stakes[c]) && !AwaitsKey(w.stakes[c])
    ensures EntryOk(v, p)
  {
    assert EntryOk(w, p);
    forall j | 0 <= j < |v.keys[p].queue|
      ensures KeyWaiter(v, p, v.keys[p].queue[j])
    {
      assert KeyWaiter(w, p, w.keys[p].queue[j]);
    }
  }

  lemma TakeKeyKeepsGood(w: World, c: nat)
    requires Good(w) && AtKey(w, c) && K.Acquire(w.keys, c, w.stakes[c].call.key).1
    ensures Good(TakeKey(w, c))
  {
    var v := TakeKey(w, c);
    assert StakeOk(w.stakes[c]);
    CoreQuiet(w, v, c);
    forall p | p in v.keys
      ensures EntryOk(v, p)
    {
      if p != w.stakes[c].call.key {
        OtherKey(w, v, c, p);
      }
    }
    forall d: nat | d < |v.stakes|
      ensures Owns(v.stakes[d]) ==> HolderOk(v, d)
      ensures AwaitsKey(v.stakes[d]) ==> WaiterOk(v, d)
    {
      assert Owns(w.stakes[d]) ==> HolderOk(w, d);
      assert AwaitsKey(w.stakes[d]) ==> WaiterOk(w, d);
    }
  }

  lemma ParkOnKeyKeepsGood(w: World, c: nat)
    requires Good(w) && AtKey(w, c) && !K.Acquire(w.keys, c, w.stakes[c].call.key).1
    ensures Good(ParkOnKey(w, c))
  {
    var v, k := ParkOnKey(w, c), w.stakes[c].call.key;
    assert StakeOk(w.stakes[c]);
    CoreQuiet(w, v, c);
    forall p | p in v.keys
      ensures EntryOk(v, p)
    {
      if p != k {
        OtherKey(w, v, c, p);
      } else {
        KeyQueueGrows(w, v, c);
      }
    }
    forall d: nat | d < |v.stakes|
      ensures Owns(v.stakes[d]) ==> HolderOk(v, d)
      ensures AwaitsKey(v.stakes[d]) ==> WaiterOk(v, d)
    {
      assert Owns(w.stakes[d]) ==> HolderOk(w, d);
      assert AwaitsKey(w.stakes[d]) ==> WaiterOk(w, d);
    }
  }

  lemma KeyQueueGrows(w: World, v: World, c: nat)
    requires KeysOk(w) && AtKey(w, c) && w.stakes[c].call.key in w.keys && v == ParkOnKey(w, c)
    ensures EntryOk(v, w.stakes[c].call.key)
  {
    var k := w.stakes[c].call.key;
    var q, q' := w.keys[k].queue, v.keys[k].queue;
    assert EntryOk(w, k);
    forall j | 0 <= j < |q'|
      ensures KeyWaiter(v, k, q'[j])
      ensures j < |q| ==> q'[j] != c
    {
      if j < |q| {
        assert q'[j] == q[j] && KeyWaiter(w, k, q[j]);
      }
    }
  }

  // ---------- giving a key back ----------

  /** A finished call that still has its key. */
  predicate OwesKey(w: World, c: nat) {
    c < |w.stakes| && w.stakes[c].call.phase == Done && w.stakes[c].call.hasKey && w.stakes[c].charged == 0
    && w.stakes[c].call.key in w.keys
  }

  /** The key is passed to the head waiter, now granted, or becomes free. */
  function GiveKey(w: World, c: nat): World
    requires OwesKey(w, c)
  {
    var x := w.stakes[c];
    var (keys, next) := K.Release(w.keys, x.call.key);
    var v := WithStake(w, c, x.(call := x.call.(hasKey := false))).(keys := keys);
    if 0 <= next < |w.stakes| && next != c then WithStake(v, next, w.stakes[next].(st := Granted)) else v
  }

  /** Who the released key went to, if anybody. */
  predicate Handed(w: World, v: World, c: nat, next: int) {
    c < |w.stakes| == |v.stakes| &&
    if next < 0 then v.stakes == w.stakes[c := v.stakes[c]]
    else
      && next < |w.stakes| && next != c && AwaitsKey(w.stakes[next])
      && v.stakes == w.stakes[c := v.stakes[c]][next := w.stakes[next].(st := Granted)]
  }

  lemma GiveKeyHands(w: World, c: nat)
    requires KeysOk(w) && OwesKey(w, c) && StakeOk(w.stakes[c])
    ensures var next := K.Release(w.keys, w.stakes[c].call.key).1; next >= -1 && Handed(w, GiveKey(w, c), c, next)
    ensures GiveKey(w, c).stakes[c] == w.stakes[c].(call := w.stakes[c].call.(hasKey := false))
  {
    var k := w.stakes[c].call.key;
    assert EntryOk(w, k);
    if w.keys[k].queue != [] {
      assert KeyWaiter(w, k, w.keys[k].queue[0]);
    }
  }

  lemma GiveKeyKeepsCore(w: World, c: nat)
    requires Good(w) && OwesKey(w, c)
    ensures Core(GiveKey(w, c)) && Settled(GiveKey(w, c))
  {
    var v := GiveKey(w, c);
    var next := K.Release(w.keys, w.stakes[c].call.key).1;
    assert StakeOk(w.stakes[c]);
    GiveKeyHands(w, c);
    var mid := WithStake(w, c, v.stakes[c]);
    CoreQuiet(w, mid, c);
    if next >= 0 {
      assert StakeOk(w.stakes[next]);
      CoreQuiet(mid, v, next);
    } else {
      CoreQuiet(w, v, c);
    }
  }

  lemma GiveKeyKeepsGood(w: World, c: nat)
    requires Good(w) && OwesKey(w, c)
    ensures Good(GiveKey(w, c))
  {
    GiveKeyKeepsCore(w, c);
    assert StakeOk(w.stakes[c]);
    GiveKeyHands(w, c);
    var v, k := GiveKey(w, c), w.stakes[c].call.key;
    assert HolderOk(w, c) && EntryOk(w, k);
    forall p | p in v.keys
      ensures EntryOk(v, p)
    {
      KeyGivenEntry(w, c, p);
    }
    forall d: nat | d < |v.stakes|
      ensures Owns(v.stakes[d]) ==> HolderOk(v, d)
      ensures AwaitsKey(v.stakes[d]) ==> WaiterOk(v, d)
    {
      assert Owns(w.stakes[d]) ==> HolderOk(w, d);
      assert AwaitsKey(w.stakes[d]) ==> WaiterOk(w, d);
    }
  }

  lemma KeyGivenEntry(w: World, c: nat, p: string)
    requires KeysOk(w) && OwesKey(w, c) && StakeOk(w.stakes[c]) && p in GiveKey(w, c).keys
    ensures EntryOk(GiveKey(w, c), p)
  {
    GiveKeyHands(w, c);
    var v, k := GiveKey(w, c), w.stakes[c].call.key;
    assert EntryOk(w, p) && EntryOk(w, k);
    assert HolderOk(w, c);
    var q := v.keys[p].queue;
    forall j | 0 <= j < |q|
      ensures KeyWaiter(v, p, q[j])
    {
      assert q[j] == w.keys[p].queue[if p == k then j + 1 else j];
      assert KeyWaiter(w, p, w.keys[p].queue[if p == k then j + 1 else j]);
    }
  }

  // ---------- withdrawing ----------

  /** A call parked on its key steps out of the queue. */
  function QuitKey(w: World, c: nat): World
    requires c < |w.stakes| && w.stakes[c].call.key in w.keys
  {
    WithStake(w, c, w.stakes[c].(st := Moving)).(keys := K.Cancel(w.keys, c, w.stakes[c].call.key))
  }

  lemma QuitKeyKeepsGood(w: World, c: nat)
    requires Good(w) && c < |w.stakes| && AwaitsKey(w.stakes[c])
    ensures w.stakes[c].call.key in w.keys && Good(QuitKey(w, c))
  {
    assert StakeOk(w.stakes[c]) && WaiterOk(w, c);
    var v, k := QuitKey(w, c), w.stakes[c].call.key;
    CoreQuiet(w, v, c);
    forall p | p in v.keys
      ensures EntryOk(v, p)
    {
      if p != k {
        OtherKey(w, v, c, p);
      } else {
        KeyQueueShrinks(w, c);
      }
    }
    forall d: nat | d < |v.stakes|
      ensures Owns(v.stakes[d]) ==> HolderOk(v, d)
      ensures AwaitsKey(v.stakes[d]) ==> WaiterOk(v, d)
    {
      assert Owns(w.stakes[d]) ==> HolderOk(w, d);
      assert AwaitsKey(w.stakes[d]) ==> WaiterOk(w, d);
      if AwaitsKey(v.stakes[d]) && v.stakes[d].call.key == k {
        StaysIn(w.keys[k].queue, IndexOf(w.keys[k].queue, c), d);
      }
    }
  }

  lemma KeyQueueShrinks(w: World, c: nat)
    requires KeysOk(w) && c < |w.stakes| && AwaitsKey(w.stakes[c]) && w.stakes[c].call.key in w.keys
    requires c in w.keys[w.stakes[c].call.key].queue
    ensures EntryOk(QuitKey(w, c), w.stakes[c].call.key)
  {
    var k := w.stakes[c].call.key;
    var v, q := QuitKey(w, c), w.keys[k].queue;
    var at := IndexOf(q, c);
    var q' := v.keys[k].queue;
    assert EntryOk(w, k);
    assert at < |q| && q' == Without(q, at);
    forall j | 0 <= j < |q'|
      ensures KeyWaiter(v, k, q'[j])
    {
      assert q'[j] == q[if j < at then j else j + 1] && KeyWaiter(w, k, q'[j]);
    }
  }

  /** A call parked on claim r steps out of its queue; waiters not yet served. */
  function StepOut(w: World, c: nat, r: string, k: nat): World
    requires c < |w.stakes| && r in w.sems && k < |w.sems[r].queue|
  {
    WithStake(w, c, w.stakes[c].(st := Moving)).(sems := w.sems[r := w.sems[r].(queue := Without(w.sems[r].queue, k))])
  }

  lemma FindsItself(w: World, c: nat, r: string)
    requires Core(w) && c < |w.stakes| && r in w.sems && QueuedOn(w.stakes[c], r)
    ensures var q := w.sems[r].queue; var k := B.Find(q, c);
            k < |q| && q[k].id == c && forall j :: 0 <= j < |q| && j != k ==> q[j].id != c
  {
    assert QueueOk(w, r) && B.InQueue(w.sems[r].queue, c);
  }

  lemma Dequeued(w: World, v: World, c: nat, r: string, k: nat)
    requires r in w.sems && r in v.sems && QueueOk(w, r) && OneStake(w, v, c) && !Queued(v.stakes[c])
    requires k < |w.sems[r].queue| && w.sems[r].queue[k].id == c && v.sems[r].queue == Without(w.sems[r].queue, k)
    ensures QueueOk(v, r)
  {
    var q, q' := w.sems[r].queue, v.sems[r].queue;
    forall j | 0 <= j < |q'|
      ensures TicketOk(v, r, q'[j])
    {
      assert TicketOk(w, r, q[if j < k then j else j + 1]);
    }
    forall i | 0 <= i < |v.stakes| && QueuedOn(v.stakes[i], r)
      ensures B.InQueue(q', i)
    {
      assert B.InQueue(q, i);
      var j :| 0 <= j < |q| && q[j].id == i;
      assert q'[if j < k then j else j - 1].id == i;
    }
  }

  lemma StepOutKeepsQueues(w: World, c: nat, r: string, k: nat)
    requires Queues(w) && c < |w.stakes| && r in w.sems && QueuedOn(w.stakes[c], r)
    requires k < |w.sems[r].queue| && w.sems[r].queue[k].id == c
    ensures Queues(StepOut(w, c, r, k))
  {
    var v := StepOut(w, c, r, k);
    forall p | p in v.sems
      ensures QueueOk(v, p)
    {
      assert QueueOk(w, p);
      if p == r {
        Dequeued(w, v, c, r, k);
      } else {
        QueueKept(w, v, c, p);
      }
    }
  }

  lemma StepOutSettles(s: Semaphore, k: nat)
    requires SemOk(s) && !s.HeadFits() && k < |s.queue|
    ensures var t := s.(queue := Without(s.queue, k)); SemOk(t) && (k > 0 ==> !t.HeadFits())
  {
    assert k > 0 ==> Without(s.queue, k)[0] == s.queue[0];
  }

  lemma StepOutKeepsCore(w: World, c: nat, r: string, k: nat)
    requires Core(w) && Settled(w) && c < |w.stakes| && r in w.sems && QueuedOn(w.stakes[c], r)
    requires k < |w.sems[r].queue| && w.sems[r].queue[k].id == c
    ensures Core(StepOut(w, c, r, k)) && SettledBut(StepOut(w, c, r, k), r)
    ensures k > 0 ==> Settled(StepOut(w, c, r, k))
  {
    StepOutKeepsStakes(w, c, r, k);
    StepOutKeepsQueues(w, c, r, k);
    StepOutKeepsSems(w, c, r, k);
  }

  lemma StepOutKeepsStakes(w: World, c: nat, r: string, k: nat)
    requires StakesOk(w) && Ledger(w) && c < |w.stakes| && r in w.sems && QueuedOn(w.stakes[c], r)
    requires k < |w.sems[r].queue|
    ensures StakesOk(StepOut(w, c, r, k)) && Ledger(StepOut(w, c, r, k))
  {
    var v := StepOut(w, c, r, k);
    assert StakeOk(w.stakes[c]);
    StakesKept(w, v, c);
    SameCharge(w.stakes[c], v.stakes[c]);
    LedgerKept(w, v, c, "", 0);
  }

  lemma StepOutKeepsSems(w: World, c: nat, r: string, k: nat)
    requires SemsOk(w) && Settled(w) && c < |w.stakes| && r in w.sems && k < |w.sems[r].queue|
    ensures SemsOk(StepOut(w, c, r, k)) && SettledBut(StepOut(w, c, r, k), r)
    ensures k > 0 ==> Settled(StepOut(w, c, r, k))
  {
    StepOutSettles(w.sems[r], k);
  }

  /** The call leaves r's queue as the semaphore's Cancel has it. */
  function QuitClaim(w: World, c: nat, r: string): World
    requires c < |w.stakes| && r in w.sems
  {
    var k := B.Find(w.sems[r].queue, c);
    if k == |w.sems[r].queue| then w
    else if k == 0 then GrantAll(StepOut(w, c, r, k), r)
    else StepOut(w, c, r, k)
  }

  lemma QuitClaimKeepsGood(w: World, c: nat, r: string)
    requires Good(w) && c < |w.stakes| && r in w.sems && QueuedOn(w.stakes[c], r)
    ensures Good(QuitClaim(w, c, r))
  {
    FindsItself(w, c, r);
    var k := B.Find(w.sems[r].queue, c);
    var v := StepOut(w, c, r, k);
    StepOutKeepsCore(w, c, r, k);
    KeyQuietMove(w, v, c);
    if k == 0 {
      GrantAllKeepsCore(v, r);
      GrantAllOnlyGrants(v, r);
      GrantsAreKeyQuiet(v, GrantAll(v, r));
    }
  }

  lemma QuitClaimSems(w: World, c: nat, r: string)
    requires c < |w.stakes| && r in w.sems && B.Find(w.sems[r].queue, c) < |w.sems[r].queue|
    ensures QuitClaim(w, c, r).sems == w.sems[r := w.sems[r].Cancel(c).0]
  {
    var k := B.Find(w.sems[r].queue, c);
    if k == 0 {
      GrantAllSems(StepOut(w, c, r, k), r);
      TwiceSet(w.sems, r, w.sems[r].(queue := Without(w.sems[r].queue, k)), w.sems[r].Cancel(c).0);
    }
  }

  lemma {:induction false} GrantAllSparesKeys(w: World, r: string)
    requires r in w.sems
    ensures GrantAll(w, r).keys == w.keys
    decreases |w.sems[r].queue|
  {
    if w.sems[r].HeadFits() {
      GrantAllSparesKeys(GrantHead(w, r), r);
    }
  }

  lemma QuitClaimKeys(w: World, c: nat, r: string)
    requires c < |w.stakes| && r in w.sems
    ensures QuitClaim(w, c, r).keys == w.keys
  {
    var k := B.Find(w.sems[r].queue, c);
    if k == 0 && w.sems[r].queue != [] {
      GrantAllSparesKeys(StepOut(w, c, r, k), r);
    }
  }

  lemma QuitClaimReports(w: World, c: nat, r: string)
    requires Core(w) && Settled(w) && c < |w.stakes| && r in w.sems && QueuedOn(w.stakes[c], r)
    ensures Reported(WithStake(w, c, w.stakes[c].(st := Moving)), QuitClaim(w, c, r), w.sems[r].Cancel(c).1)
  {
    FindsItself(w, c, r);
    var k := B.Find(w.sems[r].queue, c);
    var v := StepOut(w, c, r, k);
    StepOutKeepsCore(w, c, r, k);
    if k == 0 {
      GrantAllReports(v, r);
    }
  }

  // ---------- no deadlock ----------

  function PartyOf(x: Stake): Party {
    Party(x.call.claims, x.charged, x.call.key, Owns(x),
          if AwaitsKey(x) then OnKey else if Queued(x) then OnClaim else Free)
  }

  function Parties(w: World): seq<Party> {
    seq(|w.stakes|, i requires 0 <= i < |w.stakes| => PartyOf(w.stakes[i]))
  }

  lemma QueuedBehindUnits(w: World, c: nat, r: string)
    requires Core(w) && Settled(w) && c < |w.stakes| && r in w.sems && QueuedOn(w.stakes[c], r)
    ensures exists h :: 0 <= h < |w.stakes| && HoldsBudget(PartyOf(w.stakes[h]), r)
  {
    assert QueueOk(w, r) && B.InQueue(w.sems[r].queue, c) && SemOk(w.sems[r]);
    var s := w.sems[r];
    assert Wrap(s.used + s.queue[0].n) == s.used + s.queue[0].n;
    TotalWitness(w.stakes, UnitsOf(r));
    var h :| 0 <= h < |w.stakes| && UnitsOf(r)(w.stakes[h]) > 0;
    assert ClaimsOk(w.stakes[h].call, w.sems);
    UnitsBounds(w.stakes[h].call.claims, w.stakes[h].charged, r);
    assert HoldsBudget(PartyOf(w.stakes[h]), r);
  }

  lemma ClaimWaiterIsOrderly(w: World, p: nat)
    requires Good(w) && p < |w.stakes| && PartyOf(w.stakes[p]).waits == OnClaim
    ensures var ps := Parties(w);
            ps[p].held < |ps[p].claims| && exists h :: 0 <= h < |ps| && HoldsBudget(ps[h], ps[p].claims[ps[p].held].r)
  {
    var x := w.stakes[p];
    assert ClaimsOk(x.call, w.sems) && StakeOk(x);
    var r := x.call.claims[x.call.next].r;
    QueuedBehindUnits(w, p, r);
    var h :| 0 <= h < |w.stakes| && HoldsBudget(PartyOf(w.stakes[h]), r);
    assert HoldsBudget(Parties(w)[h], r);
  }

  lemma KeyWaiterIsOrderly(w: World, p: nat)
    requires Good(w) && p < |w.stakes| && PartyOf(w.stakes[p]).waits == OnKey
    ensures var ps := Parties(w);
            ps[p].held == 0 && !ps[p].owns && exists h :: 0 <= h < |ps| && ps[h].owns && ps[h].key == ps[p].key
  {
    assert StakeOk(w.stakes[p]) && WaiterOk(w, p);
    var k := w.stakes[p].call.key;
    assert EntryOk(w, k);
    assert Parties(w)[w.keys[k].holder].owns;
  }

  lemma WaitingIsOrderly(w: World)
    requires Good(w)
    ensures Orderly(Parties(w), w.sems.Keys)
  {
    forall p: nat | p < |w.stakes|
      ensures var q := PartyOf(w.stakes[p]);
              q.held <= |q.claims| && Ascending(q.claims)
              && forall i :: 0 <= i < |q.claims| ==> q.claims[i].r in w.sems.Keys
    {
      assert ClaimsOk(w.stakes[p].call, w.sems) && StakeOk(w.stakes[p]);
    }
    forall p: nat | p < |w.stakes| && PartyOf(w.stakes[p]).waits == OnKey
      ensures var ps := Parties(w);
              ps[p].held == 0 && !ps[p].owns && exists h :: 0 <= h < |ps| && ps[h].owns && ps[h].key == ps[p].key
    {
      KeyWaiterIsOrderly(w, p);
    }
    forall p: nat | p < |w.stakes| && PartyOf(w.stakes[p]).waits == OnClaim
      ensures var ps := Parties(w);
              ps[p].held < |ps[p].claims| && exists h :: 0 <= h < |ps| && HoldsBudget(ps[h], ps[p].claims[ps[p].held].r)
    {
      ClaimWaiterIsOrderly(w, p);
    }
  }

  /** The cascade has run out: nobody is granted, moving or half released. */
  predicate Calm(w: World) {
    forall i :: 0 <= i < |w.stakes| ==> w.stakes[i].st == Resting && Closed(w.stakes[i])
  }

  /** Once calm, a parked call means that some call is holding. */
  lemma ParkedMeansHolding(w: World, c: nat)
    requires Good(w) && Calm(w) && c < |w.stakes| && w.stakes[c].call.phase == Parked
    ensures exists h :: 0 <= h < |w.stakes| && w.stakes[h].call.phase == Holding
  {
    WaitingIsOrderly(w);
    var ps := Parties(w);
    StakeIsOk(w, c);
    ParkedWaits(w.stakes[c]);
    SomeoneIsFree(ps, w.sems.Keys, c);
    var h :| 0 <= h < |ps| && ps[h].waits == Free && (ps[h].held > 0 || ps[h].owns);
    StakeIsOk(w, h);
    FreeHolderHolds(w.stakes[h]);
  }

  lemma StakeIsOk(w: World, c: nat)
    requires Good(w) && Calm(w) && c < |w.stakes|
    ensures StakeOk(w.stakes[c]) && Closed(w.stakes[c]) && w.stakes[c].st == Resting
  {
  }

  lemma ParkedWaits(x: Stake)
    requires StakeOk(x) && x.st == Resting && x.call.phase == Parked
    ensures PartyOf(x).waits != Free
  {
  }

  lemma FreeHolderHolds(x: Stake)
    requires StakeOk(x) && Closed(x) && x.st == Resting
    requires PartyOf(x).waits == Free && (PartyOf(x).held > 0 || PartyOf(x).owns)
    ensures x.call.phase == Holding
  {
  }
}
