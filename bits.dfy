/** Python's bitwise operators on non-negative integers, defined bit by bit,
    with the facts the obstacle mask needs about them. */
module Bits {

  /** `1 << k`. */
  function Pow2(k: nat): (r: nat)
    ensures 1 <= r
  {
    if k == 0 then 1 else 2 * Pow2(k - 1)
  }

  /** `(n >> i) & 1 == 1`: bit `i` of `n` is set. */
  predicate Bit(n: nat, i: nat)
    decreases i
  {
    if i == 0 then n % 2 == 1 else Bit(n / 2, i - 1)
  }

  /** `a | b`. */
  function Or(a: nat, b: nat): nat
    decreases a + b
  {
    if a == 0 then b
    else if b == 0 then a
    else 2 * Or(a / 2, b / 2) + (if a % 2 == 1 || b % 2 == 1 then 1 else 0)
  }

  /** `a & b`. */
  function And(a: nat, b: nat): nat
    decreases a + b
  {
    if a == 0 || b == 0 then 0
    else 2 * And(a / 2, b / 2) + (if a % 2 == 1 && b % 2 == 1 then 1 else 0)
  }

  /** `n & ~(1 << k)` for a non-negative `n`. */
  function ClearBit(n: nat, k: nat): nat
    decreases k
  {
    if k == 0 then n - n % 2 else 2 * ClearBit(n / 2, k - 1) + n % 2
  }

  lemma {:induction false} NoBitOfZero(i: nat)
    ensures !Bit(0, i)
  {
    if i > 0 {
      NoBitOfZero(i - 1);
    }
  }

  /** Bit `i` of `2*h + c` (with `c` a bit) is `c` at 0 and bit `i-1` of `h` above. */
  lemma BitOfDouble(h: nat, c: nat, i: nat)
    requires c < 2
    ensures Bit(2 * h + c, i) == if i == 0 then c == 1 else Bit(h, i - 1)
  {
  }

  lemma {:induction false} BitOr(a: nat, b: nat, i: nat)
    ensures Bit(Or(a, b), i) == (Bit(a, i) || Bit(b, i))
    decreases a + b
  {
    if a == 0 {
      NoBitOfZero(i);
    } else if b == 0 {
      NoBitOfZero(i);
    } else {
      var c := if a % 2 == 1 || b % 2 == 1 then 1 else 0;
      BitOfDouble(Or(a / 2, b / 2), c, i);
      if i > 0 {
        BitOr(a / 2, b / 2, i - 1);
      }
    }
  }

  lemma {:induction false} BitAnd(a: nat, b: nat, i: nat)
    ensures Bit(And(a, b), i) == (Bit(a, i) && Bit(b, i))
    decreases a + b
  {
    if a == 0 || b == 0 {
      NoBitOfZero(i);
    } else {
      var c := if a % 2 == 1 && b % 2 == 1 then 1 else 0;
      BitOfDouble(And(a / 2, b / 2), c, i);
      if i > 0 {
        BitAnd(a / 2, b / 2, i - 1);
      }
    }
  }

  lemma {:induction false} BitClearBit(n: nat, k: nat, i: nat)
    ensures Bit(ClearBit(n, k), i) == (Bit(n, i) && i != k)
  {
    if k == 0 {
      BitOfDouble(n / 2, 0, i);
    } else {
      BitOfDouble(ClearBit(n / 2, k - 1), n % 2, i);
      if i > 0 {
        BitClearBit(n / 2, k - 1, i - 1);
      }
    }
  }

  /** `1 << k` has exactly bit `k` set. */
  lemma {:induction false} BitPow2(k: nat, i: nat)
    ensures Bit(Pow2(k), i) == (i == k)
  {
    if k == 0 {
      BitOfDouble(0, 1, i);
      if i > 0 {
        NoBitOfZero(i - 1);
      }
    } else {
      BitOfDouble(Pow2(k - 1), 0, i);
      if i > 0 {
        BitPow2(k - 1, i - 1);
      }
    }
  }

  /** `(1 << k) - 1` has exactly the bits below `k` set. */
  lemma {:induction false} BitLowMask(k: nat, i: nat)
    ensures Bit(Pow2(k) - 1, i) == (i < k)
  {
    if k == 0 {
      NoBitOfZero(i);
    } else {
      BitOfDouble(Pow2(k - 1) - 1, 1, i);
      if i > 0 {
        BitLowMask(k - 1, i - 1);
      }
    }
  }

  /** Two numbers with the same bits are equal. */
  lemma {:induction false} SameBitsSameNumber(a: nat, b: nat)
    requires forall i: nat :: Bit(a, i) == Bit(b, i)
    ensures a == b
    decreases a + b
  {
    if a != 0 || b != 0 {
      assert Bit(a, 0) == Bit(b, 0);
      forall i: nat ensures Bit(a / 2, i) == Bit(b / 2, i) {
        assert Bit(a, i + 1) == Bit(b, i + 1);
      }
      SameBitsSameNumber(a / 2, b / 2);
    }
  }
}
