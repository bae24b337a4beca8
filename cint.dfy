/**
  The parts of C++ integer semantics that the driver depends on: fixed-width
  integer types, the conversions between them (which reduce modulo a power of
  two), division that truncates toward zero, the truncating cast from a
  floating value to an integer, and shift and bitwise OR on unsigned values.
 */
module CInt {

  const TWO_32: int := 0x1_0000_0000
  const TWO_63: int := 0x8000_0000_0000_0000
  const TWO_64: int := 0x1_0000_0000_0000_0000

  type int32 = x: int | -0x8000_0000 <= x < 0x8000_0000
  type uint32 = x: int | 0 <= x < 0x1_0000_0000
  type int64 = x: int | -0x8000_0000_0000_0000 <= x < 0x8000_0000_0000_0000
  type uint64 = x: int | 0 <= x < 0x1_0000_0000_0000_0000

  /** The conversion `(uint32_t)v`: the unique 32-bit unsigned value congruent to `v`. */
  function ToUint32(v: int): (r: uint32)
    ensures 0 <= v < TWO_32 ==> r == v
    ensures v < 0 && -TWO_32 <= v ==> r == v + TWO_32
    ensures (r - v) % TWO_32 == 0
  {
    v % TWO_32
  }

  /** The conversion `(uint64_t)v`: the unique 64-bit unsigned value congruent to `v`. */
  function ToUint64(v: int): (r: uint64)
    ensures 0 <= v < TWO_64 ==> r == v
    ensures v < 0 && -TWO_64 <= v ==> r == v + TWO_64
    ensures (r - v) % TWO_64 == 0
  {
    v % TWO_64
  }

  /** The conversion `(int64_t)u` of an unsigned 64-bit value (two's complement). */
  function ToInt64(u: uint64): (r: int64)
    ensures u < TWO_63 ==> r == u
    ensures TWO_63 <= u ==> r < 0
    ensures (u - r) % TWO_64 == 0
  {
    if u < TWO_63 then u else u - TWO_64
  }

  /** C++ integer division `a / b` for a positive divisor: the quotient is truncated toward zero. */
  function TruncDiv(a: int, b: int): (q: int)
    requires b > 0
    ensures 0 <= a ==> 0 <= q && q * b <= a < q * b + b
    ensures a < 0 ==> q <= 0 && q * b - b < a <= q * b
  {
    if 0 <= a then a / b else -((-a) / b)
  }

  /** The cast `(long)x` of a floating value: truncation toward zero. */
  function TruncToInt(x: real): (r: int)
    ensures 0.0 <= x ==> r as real <= x < r as real + 1.0
    ensures x < 0.0 ==> r as real - 1.0 < x <= r as real
  {
    if 0.0 <= x then x.Floor else -((-x).Floor)
  }

  function Pow2(n: nat): (p: nat)
    ensures p > 0
  {
    if n == 0 then 1 else 2 * Pow2(n - 1)
  }

  /** `a << n` on a 64-bit unsigned value: bits shifted past bit 63 are lost. */
  function ShiftLeft64(a: uint64, n: nat): (r: uint64)
    requires n < 64
    ensures a * Pow2(n) < TWO_64 ==> r == a * Pow2(n)
  {
    (a * Pow2(n)) % TWO_64
  }

  /** Bitwise OR of two non-negative integers, one binary digit at a time. */
  function BitOr(a: nat, b: nat): nat
    decreases a
  {
    if a == 0 then b
    else if b == 0 then a
    else 2 * BitOr(a / 2, b / 2) + (if a % 2 == 1 || b % 2 == 1 then 1 else 0)
  }

  /** OR-ing a value shifted left by `n` with a value below `2^n` is addition: the bits do not overlap. */
  lemma {:induction false} BitOrDisjoint(a: nat, b: nat, n: nat)
    requires b < Pow2(n)
    ensures BitOr(a * Pow2(n), b) == a * Pow2(n) + b
  {
    if a == 0 || b == 0 {
      assert a == 0 ==> a * Pow2(n) == 0;
    } else {
      assert n > 0;
      var m := Pow2(n - 1);
      var shifted := a * Pow2(n);
      assert shifted == 2 * (a * m);
      assert a * m > 0 by { PositiveProduct(a, m); }
      BitOrDisjoint(a, b / 2, n - 1);
      assert BitOr(shifted, b) == 2 * BitOr(a * m, b / 2) + b % 2;
    }
  }

  lemma PositiveProduct(a: nat, b: nat)
    requires a > 0 && b > 0
    ensures a * b > 0
  {
  }

  lemma {:induction false} Pow2Add(m: nat, n: nat)
    ensures Pow2(m + n) == Pow2(m) * Pow2(n)
  {
    if n > 0 {
      Pow2Add(m, n - 1);
      assert Pow2(m + n) == 2 * Pow2(m + n - 1);
    }
  }

  lemma Pow2Of32()
    ensures Pow2(32) == TWO_32
  {
    assert Pow2(4) == 16;
    Pow2Add(4, 4);
    Pow2Add(8, 8);
    Pow2Add(16, 16);
  }
}
