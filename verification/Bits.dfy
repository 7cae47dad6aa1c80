/** Bit masks as natural numbers: exclusive or, intersection and parity. */
module Bits {

  function Pow2(k: nat): (p: nat)
    ensures p >= 1
  {
    if k == 0 then 1 else 2 * Pow2(k - 1)
  }

  function Xor(a: nat, b: nat): nat {
    if a == 0 && b == 0 then 0 else 2 * Xor(a / 2, b / 2) + if a % 2 == b % 2 then 0 else 1
  }

  function And(a: nat, b: nat): nat {
    if a == 0 || b == 0 then 0 else 2 * And(a / 2, b / 2) + if a % 2 == 1 && b % 2 == 1 then 1 else 0
  }

  function Or(a: nat, b: nat): nat {
    if a == 0 && b == 0 then 0 else 2 * Or(a / 2, b / 2) + if a % 2 == 1 || b % 2 == 1 then 1 else 0
  }

  lemma {:induction false} OrStaysBelow(a: nat, b: nat, k: nat)
    requires a < Pow2(k) && b < Pow2(k)
    ensures Or(a, b) < Pow2(k)
    decreases k
  {
    if k > 0 {
      OrStaysBelow(a / 2, b / 2, k - 1);
    }
  }

  lemma {:induction false} Pow2Grows(a: nat, b: nat)
    requires a < b
    ensures 2 * Pow2(a) <= Pow2(b)
  {
    if a + 1 < b {
      Pow2Grows(a, b - 1);
    }
  }

  /** bits.OnesCount */
  function Ones(a: nat): nat {
    if a == 0 then 0 else Ones(a / 2) + a % 2
  }

  /** a & (1 << i) != 0 */
  predicate Bit(a: nat, i: nat) {
    if i == 0 then a % 2 == 1 else Bit(a / 2, i - 1)
  }

  lemma XorStep(a: nat, b: nat)
    ensures Xor(a, b) / 2 == Xor(a / 2, b / 2) && Xor(a, b) % 2 == if a % 2 == b % 2 then 0 else 1
  {
  }

  lemma AndStep(a: nat, b: nat)
    ensures And(a, b) / 2 == And(a / 2, b / 2) && And(a, b) % 2 == if a % 2 == 1 && b % 2 == 1 then 1 else 0
  {
  }

  lemma OnesStep(a: nat)
    ensures Ones(a) == Ones(a / 2) + a % 2
  {
  }

  lemma {:induction false} XorParity(a: nat, b: nat)
    ensures Ones(Xor(a, b)) % 2 == (Ones(a) + Ones(b)) % 2
    decreases a + b
  {
    if a + b > 0 {
      XorParity(a / 2, b / 2);
      XorStep(a, b);
      OnesStep(Xor(a, b));
      OnesStep(a);
      OnesStep(b);
      ParityAdds(Ones(Xor(a / 2, b / 2)), Ones(a / 2), Ones(b / 2), a % 2, b % 2);
    }
  }

  lemma ParityAdds(x: nat, a: nat, b: nat, i: nat, j: nat)
    requires x % 2 == (a + b) % 2 && i < 2 && j < 2
    ensures (x + if i == j then 0 else 1) % 2 == (a + i + (b + j)) % 2
  {
  }

  lemma {:induction false} AndOverXor(r: nat, a: nat, b: nat)
    ensures And(r, Xor(a, b)) == Xor(And(r, a), And(r, b))
    decreases r
  {
    if r > 0 {
      AndOverXor(r / 2, a / 2, b / 2);
      XorStep(a, b);
      AndStep(r, Xor(a, b));
      AndStep(r, a);
      AndStep(r, b);
      XorStep(And(r, a), And(r, b));
    } else {
      assert Xor(0, 0) == 0;
    }
  }

  lemma {:induction false} XorCommutes(a: nat, b: nat)
    ensures Xor(a, b) == Xor(b, a)
    decreases a + b
  {
    if a + b > 0 {
      XorCommutes(a / 2, b / 2);
    }
  }

  lemma {:induction false} XorZero(a: nat)
    ensures Xor(a, 0) == a && Xor(0, a) == a
  {
    if a > 0 {
      XorZero(a / 2);
    }
  }

  lemma {:induction false} XorSelf(a: nat)
    ensures Xor(a, a) == 0
  {
    if a > 0 {
      XorSelf(a / 2);
    }
  }

  lemma {:induction false} XorAssociates(a: nat, b: nat, c: nat)
    ensures Xor(Xor(a, b), c) == Xor(a, Xor(b, c))
    decreases a + b + c
  {
    if a + b + c > 0 {
      XorAssociates(a / 2, b / 2, c / 2);
      XorStep(a, b);
      XorStep(b, c);
      XorStep(Xor(a, b), c);
      XorStep(a, Xor(b, c));
    } else {
      assert Xor(0, 0) == 0;
    }
  }

  lemma XorUndoes(a: nat, b: nat)
    ensures Xor(Xor(a, b), b) == a
  {
    XorAssociates(a, b, b);
    XorSelf(b);
    XorZero(a);
  }

  lemma XorDiffers(a: nat, b: nat)
    ensures Xor(a, b) == 0 <==> a == b
  {
    XorSelf(a);
    XorUndoes(a, b);
    XorZero(b);
  }

  lemma {:induction false} XorStaysBelow(a: nat, b: nat, k: nat)
    requires a < Pow2(k) && b < Pow2(k)
    ensures Xor(a, b) < Pow2(k)
    decreases k
  {
    if k > 0 {
      XorStaysBelow(a / 2, b / 2, k - 1);
      XorStep(a, b);
    } else {
      assert Xor(0, 0) == 0;
    }
  }

  /** The top bit of a mask below 2^(k+1) comes and goes by exclusive or. */
  lemma {:induction false} XorTop(a: nat, k: nat)
    requires a < Pow2(k)
    ensures Xor(a, Pow2(k)) == a + Pow2(k)
    decreases k
  {
    if k > 0 {
      XorTop(a / 2, k - 1);
      XorStep(a, Pow2(k));
    } else {
      XorZero(1);
    }
  }

  lemma {:induction false} BitOfXor(a: nat, b: nat, i: nat)
    ensures Bit(Xor(a, b), i) <==> (Bit(a, i) != Bit(b, i))
    decreases i
  {
    XorStep(a, b);
    if i > 0 {
      BitOfXor(a / 2, b / 2, i - 1);
    }
  }

  /** Bits of a word below 2^k with bit k set. */
  lemma {:induction false} BitsBelowTop(a: nat, k: nat, i: nat)
    requires a < Pow2(k) && i <= k
    ensures Bit(a + Pow2(k), i) <==> (i == k || Bit(a, i))
    ensures !Bit(a, k)
    decreases k
  {
    if k > 0 {
      assert (a + Pow2(k)) / 2 == a / 2 + Pow2(k - 1) && (a + Pow2(k)) % 2 == a % 2;
      BitsBelowTop(a / 2, k - 1, if i > 0 then i - 1 else 0);
    }
  }

  lemma {:induction false} Pow2Adds(a: nat, b: nat)
    ensures Pow2(a + b) == Pow2(a) * Pow2(b)
  {
    if a > 0 {
      Pow2Adds(a - 1, b);
    }
  }
}
