/** Go's unsigned 64-bit words as naturals below 2^64, with the operators the packed fields use. */
module Bits {
  function Pow2(n: nat): (r: nat)
    ensures r >= 1
  {
    if n == 0 then 1 else 2 * Pow2(n - 1)
  }

  const WORD := 0x1_0000_0000_0000_0000

  function Or(a: nat, b: nat): nat {
    if a == 0 && b == 0 then 0
    else 2 * Or(a / 2, b / 2) + (if a % 2 == 1 || b % 2 == 1 then 1 else 0)
  }

  function And(a: nat, b: nat): nat {
    if a == 0 || b == 0 then 0
    else 2 * And(a / 2, b / 2) + (if a % 2 == 1 && b % 2 == 1 then 1 else 0)
  }

  /** A left shift drops the bits above the word. */
  function Shl(x: nat, k: nat): nat {
    (x * Pow2(k)) % WORD
  }

  function Shr(x: nat, k: nat): nat {
    Quotient(x, Pow2(k))
  }

  function Quotient(x: nat, p: nat): nat
    requires p > 0
  {
    x / p
  }

  lemma {:induction false} Pow2Adds(a: nat, b: nat)
    ensures Pow2(a + b) == Pow2(a) * Pow2(b)
    decreases a
  {
    if a == 0 {
    } else {
      Pow2Adds(a - 1, b);
      MulAssociates(2, Pow2(a - 1), Pow2(b));
    }
  }

  lemma MulAssociates(a: nat, b: nat, c: nat)
    ensures (a * b) * c == a * (b * c)
  {
  }

  lemma Pow2OfFour()
    ensures Pow2(4) == 16
  {
  }

  lemma WordIsPow2()
    ensures Pow2(64) == WORD
  {
    hide Pow2;
    Pow2OfFour();
    Pow2Adds(4, 4);
    Pow2Adds(8, 8);
    Pow2Adds(16, 16);
    Pow2Adds(32, 32);
  }

  lemma {:induction false} Pow2Grows(a: nat, b: nat)
    requires a <= b
    ensures Pow2(a) <= Pow2(b)
    decreases b
  {
    if a < b {
      Pow2Grows(a, b - 1);
    }
  }

  /** Dividing by `p` separates what was packed above `p` from what was packed below it. */
  lemma Unpacks(hi: nat, lo: nat, p: nat)
    requires lo < p
    ensures (hi * p + lo) / p == hi && (hi * p + lo) % p == lo
  {
    var x := hi * p + lo;
    assert x == (x / p) * p + x % p;
    if x / p < hi {
      MulGrows(x / p + 1, hi, p);
    } else if x / p > hi {
      MulGrows(hi + 1, x / p, p);
    }
  }

  lemma MulGrows(a: nat, b: nat, p: nat)
    requires a <= b
    ensures a * p <= b * p
  {
  }

  /** A packed word orders like its high part first. */
  lemma PackedOrder(hi: nat, lo: nat, hi': nat, lo': nat, p: nat)
    requires lo < p && lo' < p
    ensures hi < hi' ==> hi * p + lo < hi' * p + lo'
  {
    if hi < hi' {
      MulGrows(hi + 1, hi', p);
    }
  }

  lemma PackedFits(hi: nat, lo: nat, p: nat, q: nat)
    requires hi < q && lo < p
    ensures hi * p + lo < q * p
  {
    MulGrows(hi + 1, q, p);
  }

  lemma OrUnfolds(a: nat, b: nat)
    ensures Or(a, b) == 2 * Or(a / 2, b / 2) + (if a % 2 == 1 || b % 2 == 1 then 1 else 0)
  {
  }

  lemma SmallRemainder(x: nat, p: nat)
    requires x < p
    ensures x % p == x
  {
  }

  lemma {:induction false} OrZero(a: nat)
    ensures Or(a, 0) == a
    decreases a
  {
    if a != 0 {
      OrZero(a / 2);
    }
  }

  /** Oring a field into the empty low bits adds it. */
  lemma {:induction false} OrIntoLowBits(a: nat, b: nat, k: nat)
    requires b < Pow2(k)
    ensures Or(a * Pow2(k), b) == a * Pow2(k) + b
    decreases k
  {
    if k == 0 {
      OrZero(a);
    } else {
      var h := a * Pow2(k - 1);
      assert a * Pow2(k) == 2 * h by {
        MulAssociates(2, a, Pow2(k - 1));
      }
      OrIntoLowBits(a, b / 2, k - 1);
      if 2 * h == 0 && b == 0 {
      } else {
        assert Or(2 * h, b) == 2 * Or(h, b / 2) + b % 2;
      }
    }
  }

  lemma HalvedRemainder(x: nat, p: nat)
    requires p > 0
    ensures x % (2 * p) == 2 * (x / 2 % p) + x % 2
  {
    var q, r := x / 2 / p, x / 2 % p;
    assert x / 2 == q * p + r;
    MulAssociates(q, 2, p);
    assert q * 2 == 2 * q;
    MulAssociates(2, q, p);
    Unpacks(q, 2 * r + x % 2, 2 * p);
  }

  /** Masking with `k` ones keeps the low `k` bits. */
  lemma {:induction false} AndWithMask(x: nat, k: nat)
    ensures And(x, Pow2(k) - 1) == x % Pow2(k)
    decreases k
  {
    if k == 0 {
      assert And(x, 0) == 0;
    } else {
      assert Pow2(k) == 2 * Pow2(k - 1);
      hide And, Pow2;
      AndWithMask(x / 2, k - 1);
      HalvedRemainder(x, Pow2(k - 1));
      AndWithOnes(x, Pow2(k - 1));
    }
  }

  lemma AndWithOnes(x: nat, p: nat)
    requires p > 0
    ensures And(x, 2 * p - 1) == 2 * And(x / 2, p - 1) + x % 2
  {
    assert (2 * p - 1) / 2 == p - 1 && (2 * p - 1) % 2 == 1;
  }

  /** Scaling a remainder. */
  lemma ScaledRemainder(x: nat, w: nat, p: nat)
    requires w > 0 && p > 0
    ensures (w * p) > 0 && (x * p) % (w * p) == (x % w) * p
  {
    var q, r := x / w, x % w;
    assert x == q * w + r;
    Distribute(q * w, r, p);
    MulAssociates(q, w, p);
    PackedFits(r, 0, p, w);
    Unpacks(q, r * p, w * p);
  }

  /** A shifted value is its low bits, moved up. */
  lemma ShiftKeepsLowBits(x: nat, k: nat, width: nat)
    requires k + width == 64
    ensures Shl(x, k) == (x % Pow2(width)) * Pow2(k)
  {
    WordIsPow2();
    Pow2Adds(width, k);
    ScaledRemainder(x, Pow2(width), Pow2(k));
  }

  lemma Distribute(a: nat, b: nat, p: nat)
    ensures (a + b) * p == a * p + b * p
  {
  }

  /** A field that fits below the word's top is shifted without loss. */
  lemma NoOverflow(field: nat, width: nat, low: nat)
    requires field < Pow2(width) && width + low <= 64
    ensures Shl(field, low) == field * Pow2(low)
  {
    hide Pow2, Shl;
    Pow2Grows(width, 64 - low);
    SmallRemainder(field, Pow2(64 - low));
    ShiftKeepsLowBits(field, low, 64 - low);
  }
}
