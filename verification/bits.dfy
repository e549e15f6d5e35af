/** Powers of two and bitwise operations on natural numbers, as Python's
    unbounded integers (and C's unsigned integers below their width) behave.
    Shared by the register codecs and the temperature decoder. */
module Bits {

  function Pow2(n: nat): (r: nat)
    ensures r >= 1
  {
    if n == 0 then 1 else 2 * Pow2(n - 1)
  }

  /** `(v >> i) & 1`: bit `i` (weight 2^i) of `v`. */
  function Bit(v: nat, i: nat): (b: nat)
    ensures b < 2
  {
    if i == 0 then v % 2 else Bit(v / 2, i - 1)
  }

  /** `x | y`, bit by bit from the least significant end. */
  function Or(x: nat, y: nat): nat
    decreases x + y
  {
    if x == 0 then y
    else if y == 0 then x
    else 2 * Or(x / 2, y / 2) + (if x % 2 == 1 || y % 2 == 1 then 1 else 0)
  }

  /** `x ^ y`, bit by bit from the least significant end. */
  function Xor(x: nat, y: nat): nat
    decreases x + y
  {
    if x == 0 then y
    else if y == 0 then x
    else 2 * Xor(x / 2, y / 2) + (if x % 2 != y % 2 then 1 else 0)
  }

  /** The low `n` bits of `v`, `v & ((1 << n) - 1)`. */
  function LowBits(v: nat, n: nat): (r: nat)
    ensures r < Pow2(n)
  {
    if n == 0 then 0 else 2 * LowBits(v / 2, n - 1) + v % 2
  }

  lemma {:induction false} Pow2Monotone(m: nat, n: nat)
    requires m <= n
    ensures Pow2(m) <= Pow2(n)
  {
    if m < n {
      Pow2Monotone(m, n - 1);
    }
  }

  lemma {:induction false} Pow2Add(m: nat, n: nat)
    ensures Pow2(m + n) == Pow2(m) * Pow2(n)
  {
    if n > 0 {
      Pow2Add(m, n - 1);
    }
  }

  /** A value below 2^n is its own low n bits. */
  lemma {:induction false} LowBitsOfSmall(v: nat, n: nat)
    requires v < Pow2(n)
    ensures LowBits(v, n) == v
  {
    if n > 0 {
      LowBitsOfSmall(v / 2, n - 1);
    }
  }

  /** The low n + 1 bits are the low n bits plus bit n at weight 2^n. */
  lemma {:induction false} LowBitsStep(v: nat, n: nat)
    ensures LowBits(v, n + 1) == LowBits(v, n) + Bit(v, n) * Pow2(n)
  {
    if n > 0 {
      LowBitsStep(v / 2, n - 1);
      assert Bit(v, n) * Pow2(n) == 2 * (Bit(v / 2, n - 1) * Pow2(n - 1));
    }
  }

  /** ORing a bit into a position above every set bit of `x` adds it. */
  lemma {:induction false} OrAbove(x: nat, b: nat, k: nat)
    requires x < Pow2(k) && b < 2
    ensures Or(x, b * Pow2(k)) == x + b * Pow2(k)
  {
    if x != 0 && b != 0 {
      assert k > 0;
      assert b * Pow2(k) == 2 * Pow2(k - 1);
      OrAbove(x / 2, 1, k - 1);
    }
  }

  /** The bits of `x + b * 2^k`, for `x` below 2^k: those of `x` below k,
      then `b` at k, then nothing. */
  lemma {:induction false} BitsAbove(x: nat, b: nat, k: nat, r: nat)
    requires x < Pow2(k) && b < 2
    ensures r < k ==> Bit(x + b * Pow2(k), r) == Bit(x, r)
    ensures Bit(x + b * Pow2(k), k) == b
    ensures x + b * Pow2(k) < Pow2(k + 1)
  {
    if k == 0 {
      assert x == 0;
    } else {
      assert b * Pow2(k) == 2 * (b * Pow2(k - 1));
      assert (x + b * Pow2(k)) / 2 == x / 2 + b * Pow2(k - 1);
      assert (x + b * Pow2(k)) % 2 == x % 2;
      if r > 0 {
        BitsAbove(x / 2, b, k - 1, r - 1);
      }
      BitsAbove(x / 2, b, k - 1, k - 1);
    }
  }

  /** Bits at or above n of a value below 2^n are clear. */
  lemma {:induction false} BitOfSmall(v: nat, n: nat, r: nat)
    requires v < Pow2(n) && n <= r
    ensures Bit(v, r) == 0
  {
    if r > 0 {
      if n > 0 {
        BitOfSmall(v / 2, n - 1, r - 1);
      } else {
        BitOfSmall(v / 2, 0, r - 1);
      }
    }
  }

  /** 2^n - 1 has its n low bits set. */
  lemma {:induction false} AllOnesBit(n: nat, r: nat)
    requires r < n
    ensures Bit(Pow2(n) - 1, r) == 1
  {
    assert (Pow2(n) - 1) / 2 == Pow2(n - 1) - 1;
    if r > 0 {
      AllOnesBit(n - 1, r - 1);
    }
  }

  /** 2^k has bit k alone set. */
  lemma {:induction false} Pow2Bit(k: nat, r: nat)
    ensures Bit(Pow2(k), r) == if r == k then 1 else 0
  {
    if r > 0 && k > 0 {
      Pow2Bit(k - 1, r - 1);
    } else if r > 0 {
      BitOfSmall(0, 0, r - 1);
    }
  }

  /** Bit i of x ^ y is the xor of the bits of x and y. */
  lemma {:induction false} XorBit(x: nat, y: nat, i: nat)
    ensures Bit(Xor(x, y), i) == if Bit(x, i) != Bit(y, i) then 1 else 0
    decreases i
  {
    if x == 0 {
      BitOfSmall(0, 0, i);
    } else if y == 0 {
      BitOfSmall(0, 0, i);
    } else if i > 0 {
      var q := Xor(x / 2, y / 2);
      assert Xor(x, y) / 2 == q;
      XorBit(x / 2, y / 2, i - 1);
    }
  }

  /** The xor of two values below 2^n is below 2^n. */
  lemma {:induction false} XorBound(x: nat, y: nat, n: nat)
    requires x < Pow2(n) && y < Pow2(n)
    ensures Xor(x, y) < Pow2(n)
    decreases n
  {
    if x != 0 && y != 0 {
      XorBound(x / 2, y / 2, n - 1);
    }
  }

  /** Two values below 2^n with the same n low bits are equal. */
  lemma {:induction false} BitsDetermine(x: nat, y: nat, n: nat)
    requires x < Pow2(n) && y < Pow2(n)
    requires forall i :: 0 <= i < n ==> Bit(x, i) == Bit(y, i)
    ensures x == y
    decreases n
  {
    if n > 0 {
      forall i | 0 <= i < n - 1
        ensures Bit(x / 2, i) == Bit(y / 2, i)
      {
        assert Bit(x, i + 1) == Bit(y, i + 1);
      }
      BitsDetermine(x / 2, y / 2, n - 1);
      assert Bit(x, 0) == Bit(y, 0);
    }
  }

  /** The xor of two bits. */
  lemma XorOfBits(a: nat, b: nat)
    requires a < 2 && b < 2
    ensures Xor(a, b) == if a != b then 1 else 0
  {
    if a == 1 && b == 1 {
      assert Xor(a, b) == 2 * Xor(0, 0);
    }
  }
}
