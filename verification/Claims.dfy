/** What a call asks of the budgets, and why waiting for it cannot deadlock. */
module Claims {
  import opened Names

  /** n units of the budget named r. */
  datatype Claim = Claim(r: string, n: int)

  predicate Ascending(cs: seq<Claim>) {
    forall i, j :: 0 <= i < j < |cs| ==> Before(cs[i].r, cs[j].r)
  }

  /** Units of r among the first h claims. */
  function Units(cs: seq<Claim>, h: int, r: string): int {
    if h <= 0 || h > |cs| then 0
    else Units(cs, h - 1, r) + if cs[h - 1].r == r then cs[h - 1].n else 0
  }

  lemma {:induction false} UnitsBounds(cs: seq<Claim>, h: int, r: string)
    requires forall i :: 0 <= i < |cs| ==> cs[i].n > 0
    ensures Units(cs, h, r) >= 0
    ensures Units(cs, h, r) > 0 ==> exists j :: 0 <= j < h <= |cs| && cs[j].r == r
  {
    if 0 < h <= |cs| {
      UnitsBounds(cs, h - 1, r);
    }
  }

  lemma {:induction false} UnitsHeld(cs: seq<Claim>, h: int, j: int)
    requires 0 <= j < h <= |cs|
    requires forall i :: 0 <= i < |cs| ==> cs[i].n > 0
    ensures Units(cs, h, cs[j].r) >= cs[j].n
  {
    UnitsBounds(cs, h - 1, cs[j].r);
    if j < h - 1 {
      UnitsHeld(cs, h - 1, j);
    }
  }

  datatype Waits = Free | OnKey | OnClaim

  /** One call as the wait-for graph sees it: it holds its first `held`
      claims, perhaps its key, and may wait for its key or its next claim. */
  datatype Party = Party(claims: seq<Claim>, held: nat, key: string, owns: bool, waits: Waits)

  predicate HoldsBudget(p: Party, r: string) {
    exists j :: 0 <= j < p.held <= |p.claims| && p.claims[j].r == r
  }

  /** Every wait is for something another party has, and waiting follows the
      acquisition order: the key first, then claims in name order. */
  ghost predicate Orderly(ps: seq<Party>, names: set<string>) {
    && (forall p :: 0 <= p < |ps| ==>
          && ps[p].held <= |ps[p].claims|
          && Ascending(ps[p].claims)
          && forall i :: 0 <= i < |ps[p].claims| ==> ps[p].claims[i].r in names)
    && (forall p :: 0 <= p < |ps| && ps[p].waits == OnKey ==>
          && ps[p].held == 0
          && !ps[p].owns
          && exists h :: 0 <= h < |ps| && ps[h].owns && ps[h].key == ps[p].key)
    && (forall p :: 0 <= p < |ps| && ps[p].waits == OnClaim ==>
          && ps[p].held < |ps[p].claims|
          && exists h :: 0 <= h < |ps| && HoldsBudget(ps[h], ps[p].claims[ps[p].held].r))
  }

  function LaterNames(names: set<string>, r: string): set<string> {
    set x | x in names && Before(r, x)
  }

  /** Following waits upwards always reaches a party that holds something and
      waits for nothing: there is no deadlock. */
  lemma {:induction false} SomeoneIsFree(ps: seq<Party>, names: set<string>, p: int)
    requires Orderly(ps, names)
    requires 0 <= p < |ps| && ps[p].waits != Free
    ensures exists h :: 0 <= h < |ps| && ps[h].waits == Free && (ps[h].held > 0 || ps[h].owns)
    decreases if ps[p].waits == OnKey then 1 else 0,
              if ps[p].waits == OnKey then {} else LaterNames(names, ps[p].claims[ps[p].held].r)
  {
    if ps[p].waits == OnKey {
      var h :| 0 <= h < |ps| && ps[h].owns && ps[h].key == ps[p].key;
      if ps[h].waits != Free {
        SomeoneIsFree(ps, names, h);
      }
    } else {
      var r := ps[p].claims[ps[p].held].r;
      var h :| 0 <= h < |ps| && HoldsBudget(ps[h], r);
      if ps[h].waits != Free {
        LaterShrinks(names, r, ps[h].claims[ps[h].held].r);
        SomeoneIsFree(ps, names, h);
      }
    }
  }

  lemma LaterShrinks(names: set<string>, r: string, t: string)
    requires Before(r, t) && t in names
    ensures LaterNames(names, t) < LaterNames(names, r)
  {
    forall x | x in LaterNames(names, t)
      ensures x in LaterNames(names, r)
    {
      BeforeTransitive(r, t, x);
    }
    BeforeIrreflexive(t);
    assert t in LaterNames(names, r) && t !in LaterNames(names, t);
  }
}
