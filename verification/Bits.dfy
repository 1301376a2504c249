/** Machine-integer operations on natural numbers, and what they are in arithmetic. */
module Bits {

  function Pow2(n: nat): (p: nat)
    ensures 0 < p
  {
    if n == 0 then 1 else 2 * Pow2(n - 1)
  }

  /** `a >> n`. */
  function ShiftRight(a: nat, n: nat): nat {
    if n == 0 then a else ShiftRight(a / 2, n - 1)
  }

  /** The last n binary digits of a. */
  function LowBits(a: nat, n: nat): nat {
    if n == 0 then 0 else 2 * LowBits(a / 2, n - 1) + a % 2
  }

  /** `a & b`. */
  function BitAnd(a: nat, b: nat): nat {
    if a == 0 || b == 0 then 0 else 2 * BitAnd(a / 2, b / 2) + (if a % 2 == 1 && b % 2 == 1 then 1 else 0)
  }

  /** `a | b`. */
  function BitOr(a: nat, b: nat): nat
    decreases a + b
  {
    if a == 0 then b
    else if b == 0 then a
    else 2 * BitOr(a / 2, b / 2) + (if a % 2 == 1 || b % 2 == 1 then 1 else 0)
  }

  /** Shift and low bits are quotient and remainder by 2^n. */
  lemma {:induction false} LowBitsRemain(a: nat, n: nat)
    ensures a == ShiftRight(a, n) * Pow2(n) + LowBits(a, n)
    ensures LowBits(a, n) < Pow2(n)
  {
    if n > 0 {
      LowBitsRemain(a / 2, n - 1);
      var q, p := ShiftRight(a / 2, n - 1), Pow2(n - 1);
      DoubleProduct(q, p);
    }
  }

  lemma {:induction false} AndWithMask(a: nat, k: nat)
    ensures BitAnd(a, Pow2(k) - 1) == LowBits(a, k)
  {
    if k == 0 {
    } else {
      AndWithMask(a / 2, k - 1);
      AndWithOdd(a, Pow2(k - 1) - 1);
    }
  }

  lemma AndWithOdd(a: nat, m: nat)
    ensures BitAnd(a, 2 * m + 1) == 2 * BitAnd(a / 2, m) + a % 2
  {
    assert (2 * m + 1) / 2 == m;
  }

  lemma OrOneOnEven(a: nat)
    requires a % 2 == 0
    ensures BitOr(a, 1) == a + 1
  {
    if a > 0 {
      assert BitOr(a / 2, 0) == a / 2;
    }
  }

  /** floor(log2(n)): the floating logarithm of the source, truncated to an integer. */
  function FloorLog2(n: nat): nat
    requires 0 < n
  {
    if n == 1 then 0 else 1 + FloorLog2(n / 2)
  }

  lemma {:induction false} FloorLog2Bounds(n: nat)
    requires 0 < n
    ensures Pow2(FloorLog2(n)) <= n < Pow2(FloorLog2(n) + 1)
  {
    if n > 1 {
      FloorLog2Bounds(n / 2);
    }
  }

  lemma FloorLog2Small(n: nat)
    requires 0 < n < 0x8000_0000
    ensures FloorLog2(n) <= 30
  {
    FloorLog2Bounds(n);
    if FloorLog2(n) >= 31 {
      Pow2Monotone(31, FloorLog2(n));
      Pow2Of32();
    }
  }

  lemma {:induction false} Pow2Monotone(m: nat, n: nat)
    requires m <= n
    ensures Pow2(m) <= Pow2(n)
  {
    if m < n {
      Pow2Monotone(m, n - 1);
    }
  }

  lemma Pow2Of32()
    ensures Pow2(31) == 0x8000_0000 && Pow2(32) == 0x1_0000_0000
  {
    assert Pow2(8) == 256;
    assert Pow2(16) == 256 * Pow2(8);
    assert Pow2(24) == 256 * Pow2(16);
    assert Pow2(32) == 256 * Pow2(24);
  }

  /** Low bits only see the number modulo 2^n. */
  lemma {:induction false} LowBitsOfSum(a: nat, m: nat, n: nat)
    ensures LowBits(a + m * Pow2(n), n) == LowBits(a, n)
  {
    if n > 0 {
      DoubleProduct(m, Pow2(n - 1));
      assert (a + 2 * (m * Pow2(n - 1))) / 2 == a / 2 + m * Pow2(n - 1);
      LowBitsOfSum(a / 2, m, n - 1);
    }
  }

  lemma {:induction false} Pow2Splits(m: nat, n: nat)
    ensures Pow2(m + n) == Pow2(m) * Pow2(n)
  {
    if m > 0 {
      Pow2Splits(m - 1, n);
      assert Pow2(m + n) == 2 * (Pow2(m - 1) * Pow2(n));
    }
  }

  lemma DoubleProduct(q: int, p: int)
    ensures q * (2 * p) == 2 * (q * p)
  {
  }

  lemma PositiveProduct(x: int, y: int)
    requires 0 < x && 0 < y
    ensures 0 < x * y
  {
  }

  lemma MulAtLeast(x: int, d: int)
    requires 1 <= x && 0 <= d
    ensures d <= x * d
  {
  }

  lemma OneQuotient(d: int, q: int, r: int, q': int, r': int)
    requires 0 < d && q * d + r == q' * d + r' && 0 <= r < d && 0 <= r' < d
    ensures q == q' && r == r'
  {
    if q > q' {
      MulAtLeast(q - q', d);
    } else if q < q' {
      MulAtLeast(q' - q, d);
    }
  }

  lemma Euclid(a: int, d: int)
    requires 0 < d
    ensures a == (a / d) * d + a % d
  {
  }

  lemma DivisionIsUnique(a: int, d: int, q: int, r: int)
    requires 0 < d && a == q * d + r && 0 <= r < d
    ensures a / d == q && a % d == r
  {
    Euclid(a, d);
    OneQuotient(d, q, r, a / d, a % d);
  }

  /** Integer division of the source, by its two bounds. */
  function Quotient(a: nat, d: nat): (q: nat)
    requires 0 < d
    ensures q * d <= a < (q + 1) * d
  {
    QuotientBounds(a, d);
    a / d
  }

  lemma QuotientBounds(a: nat, d: nat)
    requires 0 < d
    ensures 0 <= a / d
    ensures (a / d) * d <= a < (a / d + 1) * d
  {
    Euclid(a, d);
    if a / d < 0 {
      MulAtLeast(-(a / d), d);
    }
  }

  lemma QuotientInRange(a: nat, d: nat)
    requires 0 < d <= a
    ensures 0 < Quotient(a, d) <= a
  {
    var q := Quotient(a, d);
    if q > 0 {
      MulAtLeast(d, q);
    }
  }
}
