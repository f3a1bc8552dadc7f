/** Java's two's-complement integer arithmetic, stated on mathematical integers.

    A Java `long` is an integer in [-2^63, 2^63) and a Java `int` one in
    [-2^31, 2^31).  The bitwise operators `&`, `|` and `^` are defined bit by
    bit on the (conceptually infinite) two's-complement expansion of their
    operands, which for operands in range agrees with Java's 64- and 32-bit
    operators.  `<<` on a `long` multiplies by a power of two and wraps the
    product back into range; `>>` is the arithmetic shift, i.e. floor
    division by a power of two, which is what Dafny's Euclidean `/` computes
    for a positive divisor. */
module Bits {

  const LONG_MIN: int := -0x8000_0000_0000_0000
  const LONG_MAX: int := 0x7FFF_FFFF_FFFF_FFFF
  const INT_MIN: int := -0x8000_0000
  const INT_MAX: int := 0x7FFF_FFFF

  /** The values of a Java `long`. */
  type Long = x: int | LONG_MIN <= x <= LONG_MAX

  /** The values of a Java `int`. */
  type Int = x: int | INT_MIN <= x <= INT_MAX

  function Pow2(k: nat): (r: nat)
    ensures r >= 1
  {
    if k == 0 then 1 else 2 * Pow2(k - 1)
  }

  function Abs(x: int): nat
  {
    if x < 0 then -x else x
  }

  /** Truncation of an integer to 64 bits, read back as a signed `long`:
      what Java does to the result of `+`, `-`, `*` and `<<` on `long`. */
  function WrapLong(x: int): (r: Long)
    ensures (x - r) % 0x1_0000_0000_0000_0000 == 0
    ensures LONG_MIN <= x <= LONG_MAX ==> r == x
  {
    (x - LONG_MIN) % 0x1_0000_0000_0000_0000 + LONG_MIN
  }

  /** Truncation to 32 bits, read back as a signed `int`: Java's `(int)` cast. */
  function WrapInt(x: int): (r: Int)
    ensures (x - r) % 0x1_0000_0000 == 0
    ensures INT_MIN <= x <= INT_MAX ==> r == x
  {
    (x - INT_MIN) % 0x1_0000_0000 + INT_MIN
  }

  datatype BitOp = AndOp | OrOp | XorOp

  function ApplyBit(op: BitOp, x: bool, y: bool): bool
  {
    match op
    case AndOp => x && y
    case OrOp => x || y
    case XorOp => x != y
  }

  /** `op` applied to every bit of the two's-complement expansions of `a`
      and `b`.  Once both operands are 0 or -1 every remaining bit is the
      sign bit; otherwise the lowest bit (`a % 2`) is combined and the rest
      (`a / 2`, an arithmetic shift right by one) is handled recursively. */
  function Bitwise(op: BitOp, a: int, b: int): int
    decreases Abs(a) + Abs(b)
  {
    if (a == 0 || a == -1) && (b == 0 || b == -1) then
      (if ApplyBit(op, a == -1, b == -1) then -1 else 0)
    else
      2 * Bitwise(op, a / 2, b / 2) + (if ApplyBit(op, a % 2 == 1, b % 2 == 1) then 1 else 0)
  }

  /** Java `a & b`. */
  function And(a: int, b: int): int { Bitwise(AndOp, a, b) }

  /** Java `a | b`. */
  function Or(a: int, b: int): int { Bitwise(OrOp, a, b) }

  /** Java `a ^ b`. */
  function Xor(a: int, b: int): int { Bitwise(XorOp, a, b) }

  /** Java `x << k` on a `long` (for a shift distance below 64, where Java
      does not reduce the distance). */
  function ShiftLeftLong(x: Long, k: nat): Long
    requires k < 64
  {
    WrapLong(x * Pow2(k))
  }

  /** Java `x >> k`: the arithmetic shift right, which rounds toward
      negative infinity. */
  function ShiftRight(x: int, k: nat): int
  {
    x / Pow2(k)
  }

  // ---------------------------------------------------------------------
  // Arithmetic facts about the bit operations.
  // ---------------------------------------------------------------------

  lemma {:induction false} AndZero(x: int)
    ensures And(x, 0) == 0
    decreases Abs(x)
  {
    if !(x == 0 || x == -1) {
      AndZero(x / 2);
    }
  }

  lemma {:induction false} OrZero(x: int)
    ensures Or(x, 0) == x
    decreases Abs(x)
  {
    if !(x == 0 || x == -1) {
      OrZero(x / 2);
    }
  }

  /** Splitting off the lowest bit commutes with reduction modulo 2p. */
  lemma ModDouble(x: int, p: nat)
    requires p >= 1
    ensures 2 * ((x / 2) % p) + x % 2 == x % (2 * p)
  {
    var q, r := x / 2, x % 2;
    var t, u := q / p, q % p;
    assert x == 2 * p * t + (2 * u + r);
    assert 0 <= 2 * u + r < 2 * p;
    ModUnique(x, 2 * p, t, 2 * u + r);
  }

  /** The remainder is determined by any decomposition with a remainder in range. */
  lemma ModUnique(x: int, d: nat, t: int, r: int)
    requires d >= 1 && 0 <= r < d && x == d * t + r
    ensures x % d == r && x / d == t
  {
    var t', r' := x / d, x % d;
    if t' < t {
      MulAtLeast(d, t - t');
    } else if t' > t {
      MulAtLeast(d, t' - t);
    }
  }

  /** Values less than `p` apart differ modulo `p`. */
  lemma ModShiftDistinct(a: int, d: int, p: nat)
    requires 0 < d < p
    ensures a % p != (a + d) % p
  {
    if a % p == (a + d) % p {
      var q1, q2 := a / p, (a + d) / p;
      assert d == p * q2 - p * q1;
      if q2 > q1 {
        assert p * (q2 - q1) == p * q2 - p * q1;
        MulAtLeast(p, q2 - q1);
      } else {
        assert p * (q1 - q2 + 1) == p * q1 - p * q2 + p;
        MulAtLeast(p, q1 - q2 + 1);
      }
    }
  }

  /** Integers that agree modulo `d * e` agree modulo `d`. */
  lemma ModCongruent(x: int, y: int, d: nat, e: nat)
    requires d >= 1 && e >= 1
    requires (x - y) % (d * e) == 0
    ensures x % d == y % d
  {
    var q := (x - y) / (d * e);
    assert x - y == (d * e) * q;
    assert (d * e) * q == d * (e * q);
    assert y == d * (y / d) + y % d;
    assert x == d * (y / d) + d * (e * q) + y % d;
    assert d * (y / d) + d * (e * q) == d * (y / d + e * q);
    ModUnique(x, d, y / d + e * q, y % d);
  }

  lemma {:induction false} MulAtLeast(d: nat, n: int)
    requires n >= 1
    ensures d * n >= d
    decreases n
  {
    if n > 1 {
      MulAtLeast(d, n - 1);
      assert d * n == d * (n - 1) + d;
    }
  }

  /** Masking with the low-bit mask `2^k - 1` keeps the value modulo `2^k`:
      Java's `x & (2^k - 1)` equals the Euclidean remainder, for negative
      `x` too. */
  lemma {:induction false} AndLowMask(x: int, k: nat)
    ensures And(x, Pow2(k) - 1) == x % Pow2(k)
    decreases k
  {
    if k == 0 {
      AndZero(x);
    } else {
      var p := Pow2(k - 1);
      assert (2 * p - 1) / 2 == p - 1 && (2 * p - 1) % 2 == 1;
      AndLowMask(x / 2, k - 1);
      ModDouble(x, p);
    }
  }

  /** If `a` has no bits below position `k` and `b` has none at or above it,
      `a | b` is `a + b`. */
  lemma {:induction false} OrDisjoint(a: int, b: int, k: nat)
    requires a % Pow2(k) == 0
    requires 0 <= b < Pow2(k)
    ensures Or(a, b) == a + b
    decreases k
  {
    if k == 0 {
      OrZero(a);
    } else if (a == 0 || a == -1) && (b == 0 || b == -1) {
      if a == -1 {
        ModUnique(-1, Pow2(k), -1, Pow2(k) - 1);
      }
    } else {
      var p := Pow2(k - 1);
      var q := a / Pow2(k);
      ModUnique(a, Pow2(k), q, 0);
      assert a == 2 * (p * q);
      ModUnique(a, 2, p * q, 0);
      ModUnique(a / 2, p, q, 0);
      OrDisjoint(a / 2, b / 2, k - 1);
    }
  }

  /** `-1 ^ (-1 << k)` is the mask of the `k` lowest bits, `2^k - 1`. */
  lemma {:induction false} LowMaskFromShift(k: nat)
    requires k < 64
    ensures Xor(-1, ShiftLeftLong(-1, k)) == Pow2(k) - 1
  {
    PowBound(k, 63);
    PowValues();
    assert ShiftLeftLong(-1, k) == -(Pow2(k) as int);
    XorMinusOnePow(k);
  }

  lemma {:induction false} XorMinusOnePow(k: nat)
    ensures Xor(-1, -(Pow2(k) as int)) == Pow2(k) - 1
  {
    if k > 0 {
      var p := Pow2(k - 1);
      assert -(Pow2(k) as int) / 2 == -(p as int) && -(Pow2(k) as int) % 2 == 0;
      XorMinusOnePow(k - 1);
    }
  }

  lemma {:induction false} PowBound(k: nat, n: nat)
    requires k <= n
    ensures Pow2(k) <= Pow2(n)
    decreases n
  {
    if k < n {
      PowBound(k, n - 1);
    }
  }

  lemma {:induction false} PowAdd(a: nat, b: nat)
    ensures Pow2(a + b) == Pow2(a) * Pow2(b)
    decreases a
  {
    if a > 0 {
      PowAdd(a - 1, b);
      assert Pow2(a) * Pow2(b) == 2 * (Pow2(a - 1) * Pow2(b));
    }
  }

  /** The powers of two that the identifier layout uses. */
  lemma PowValues()
    ensures Pow2(10) == 0x400
    ensures Pow2(22) == 0x40_0000
    ensures Pow2(32) == 0x1_0000_0000
    ensures Pow2(63) == 0x8000_0000_0000_0000
  {
    assert Pow2(10) == 0x400 && Pow2(11) == 0x800;
    PowAdd(11, 11);
    PowAdd(22, 10);
    PowAdd(32, 31);
    PowAdd(21, 10);
  }
}
