/** Bitwise operations on non-negative integers, as Ruby's Integer#&, Integer#| and the
    15-bit masked complement `(~a) & 32767` compute them, with their bit-level meaning. */
module Bits {

  function Pow2(k: nat): (p: nat)
    ensures p >= 1
  {
    if k == 0 then 1 else 2 * Pow2(k - 1)
  }

  /** Bit i of x: the coefficient of 2^i in the binary expansion of x. */
  predicate Bit(x: nat, i: nat)
  {
    if i == 0 then x % 2 == 1 else Bit(x / 2, i - 1)
  }

  /** Bitwise and of two non-negative integers. */
  function And(a: nat, b: nat): nat
  {
    if a == 0 || b == 0 then 0
    else 2 * And(a / 2, b / 2) + (if a % 2 == 1 && b % 2 == 1 then 1 else 0)
  }

  /** Bitwise or of two non-negative integers. */
  function Or(a: nat, b: nat): nat
  {
    if a == 0 then b
    else if b == 0 then a
    else 2 * Or(a / 2, b / 2) + (if a % 2 == 1 || b % 2 == 1 then 1 else 0)
  }

  /** The low k bits of x, each flipped; higher bits are cleared. For k = 15 this is
      `(~x) & 32767` on a two's-complement integer. */
  function Complement(x: nat, k: nat): nat
  {
    if k == 0 then 0 else 2 * Complement(x / 2, k - 1) + (1 - x % 2)
  }

  /** Halving undoes doubling and keeps the low bit as the remainder. */
  lemma Halves(q: nat, low: nat)
    requires low < 2
    ensures (2 * q + low) / 2 == q && (2 * q + low) % 2 == low
  {
  }

  lemma {:induction false} ZeroHasNoBits(i: nat)
    ensures !Bit(0, i)
  {
    if i > 0 {
      ZeroHasNoBits(i - 1);
    }
  }

  lemma {:induction false} AndBit(a: nat, b: nat, i: nat)
    ensures Bit(And(a, b), i) <==> Bit(a, i) && Bit(b, i)
  {
    if a == 0 || b == 0 {
      ZeroHasNoBits(i);
    } else {
      var low := if a % 2 == 1 && b % 2 == 1 then 1 else 0;
      Halves(And(a / 2, b / 2), low);
      if i > 0 {
        AndBit(a / 2, b / 2, i - 1);
      }
    }
  }

  lemma {:induction false} OrBit(a: nat, b: nat, i: nat)
    ensures Bit(Or(a, b), i) <==> Bit(a, i) || Bit(b, i)
  {
    if a == 0 || b == 0 {
      ZeroHasNoBits(i);
    } else {
      var low := if a % 2 == 1 || b % 2 == 1 then 1 else 0;
      Halves(Or(a / 2, b / 2), low);
      if i > 0 {
        OrBit(a / 2, b / 2, i - 1);
      }
    }
  }

  lemma {:induction false} ComplementBit(x: nat, k: nat, i: nat)
    ensures Bit(Complement(x, k), i) <==> i < k && !Bit(x, i)
  {
    if k == 0 {
      ZeroHasNoBits(i);
    } else {
      Halves(Complement(x / 2, k - 1), 1 - x % 2);
      if i > 0 {
        ComplementBit(x / 2, k - 1, i - 1);
      }
    }
  }

  lemma AndBits(a: nat, b: nat)
    ensures forall i: nat :: Bit(And(a, b), i) <==> Bit(a, i) && Bit(b, i)
  {
    forall i: nat
      ensures Bit(And(a, b), i) <==> Bit(a, i) && Bit(b, i)
    {
      AndBit(a, b, i);
    }
  }

  lemma OrBits(a: nat, b: nat)
    ensures forall i: nat :: Bit(Or(a, b), i) <==> Bit(a, i) || Bit(b, i)
  {
    forall i: nat
      ensures Bit(Or(a, b), i) <==> Bit(a, i) || Bit(b, i)
    {
      OrBit(a, b, i);
    }
  }

  lemma ComplementBits(x: nat, k: nat)
    ensures forall i: nat :: Bit(Complement(x, k), i) <==> i < k && !Bit(x, i)
  {
    forall i: nat
      ensures Bit(Complement(x, k), i) <==> i < k && !Bit(x, i)
    {
      ComplementBit(x, k, i);
    }
  }

  /** Clearing bits never makes a number larger. */
  lemma {:induction false} AndAtMost(a: nat, b: nat)
    ensures And(a, b) <= a && And(a, b) <= b
  {
    if a != 0 && b != 0 {
      AndAtMost(a / 2, b / 2);
    }
  }

  /** Or of two k-bit numbers is a k-bit number. */
  lemma {:induction false} OrBelow(a: nat, b: nat, k: nat)
    requires a < Pow2(k) && b < Pow2(k)
    ensures Or(a, b) < Pow2(k)
  {
    if a != 0 && b != 0 {
      OrBelow(a / 2, b / 2, k - 1);
    }
  }

  /** The complement of k bits is a k-bit number. */
  lemma {:induction false} ComplementBelow(x: nat, k: nat)
    ensures Complement(x, k) < Pow2(k)
  {
    if k > 0 {
      ComplementBelow(x / 2, k - 1);
    }
  }

  /** On a k-bit number the complement is the arithmetic difference to 2^k - 1. */
  lemma {:induction false} ComplementSum(x: nat, k: nat)
    requires x < Pow2(k)
    ensures Complement(x, k) + x == Pow2(k) - 1
  {
    if k > 0 {
      ComplementSum(x / 2, k - 1);
    }
  }

  lemma Pow2Of15()
    ensures Pow2(15) == 32768
  {
    assert Pow2(5) == 32;
    assert Pow2(10) == 1024;
  }

  /** Or of two 15-bit values is a 15-bit value. */
  lemma OrFifteenBits(a: nat, b: nat)
    requires a < 32768 && b < 32768
    ensures Or(a, b) < 32768
  {
    Pow2Of15();
    OrBelow(a, b, 15);
  }
}
