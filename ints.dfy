/** The fixed-width integer types of the Rust source, as subset types of `int`,
    and the `as` conversions between them that truncate or sign-extend. */
module Ints {

  const I32_MIN: int := -0x8000_0000
  const I32_MAX: int := 0x7fff_ffff
  const U32_LIMIT: int := 0x1_0000_0000
  /** The model assumes a 64-bit target: `usize` holds 0 .. 2^64 - 1. */
  const USIZE_LIMIT: int := 0x1_0000_0000_0000_0000

  type byte = x: int | 0 <= x < 256
  type u16 = x: int | 0 <= x < 0x1_0000
  type i32 = x: int | I32_MIN <= x <= I32_MAX
  type u32 = x: int | 0 <= x < U32_LIMIT

  predicate InI32(x: int) {
    I32_MIN <= x <= I32_MAX
  }

  /** `v as usize` for an i32 `v`: sign extension to 64 bits, read unsigned. */
  function I32AsUsize(v: i32): (r: nat)
    ensures r < USIZE_LIMIT
    ensures v >= 0 ==> r == v
    ensures v < 0 ==> r == v + USIZE_LIMIT && r >= USIZE_LIMIT / 2
  {
    if v >= 0 then v else USIZE_LIMIT + v
  }

  /** `n as u32` for an i32 `n`: two's complement reinterpretation. */
  function I32AsU32(n: i32): (r: u32)
    ensures n >= 0 ==> r == n
    ensures n < 0 ==> r == n + U32_LIMIT
  {
    n % U32_LIMIT
  }

  /** `n as i32` for a `usize` length `n`: keeps the low 32 bits, read signed. */
  function UsizeAsI32(n: nat): (r: i32)
    ensures n <= I32_MAX ==> r == n
    ensures (r - n) % U32_LIMIT == 0
  {
    var low := n % U32_LIMIT;
    if low <= I32_MAX then low else low - U32_LIMIT
  }

  /** `n as u16` for an i32 `n`: keeps the low 16 bits. */
  function I32AsU16(n: i32): (r: u16)
    ensures 0 <= n < 0x1_0000 ==> r == n
    ensures (n - r) % 0x1_0000 == 0
  {
    n % 0x1_0000
  }

  /** Rust's `/` on i32: the quotient truncated toward zero. */
  function TruncDiv(x: int, y: int): int
    requires y != 0
  {
    var q := Abs(x) / Abs(y);
    if (x < 0) == (y < 0) then q else -q
  }

  /** Rust's `%` on i32: the remainder of the truncated quotient, with the sign of `x`. */
  function TruncRem(x: int, y: int): int
    requires y != 0
  {
    var m := Abs(x) % Abs(y);
    if x < 0 then -m else m
  }

  function Abs(x: int): nat {
    if x < 0 then -x else x
  }

  /** The pair (TruncDiv, TruncRem) is the quotient and remainder of truncated
      division: they rebuild the dividend, the remainder is smaller than the
      divisor and never has the opposite sign of the dividend. */
  lemma TruncDivision(x: int, y: int)
    requires y != 0
    ensures x == y * TruncDiv(x, y) + TruncRem(x, y)
    ensures Abs(TruncRem(x, y)) < Abs(y)
    ensures x >= 0 ==> TruncRem(x, y) >= 0
    ensures x < 0 ==> TruncRem(x, y) <= 0
  {
    var q := Abs(x) / Abs(y);
    var m := Abs(x) % Abs(y);
    assert Abs(x) == Abs(y) * q + m;
    if (x < 0) == (y < 0) {
      if x >= 0 {
        assert y * q == Abs(y) * q;
      } else {
        assert y * q == -(Abs(y) * q);
      }
    } else {
      if x >= 0 {
        assert y * TruncDiv(x, y) == Abs(y) * q;
      } else {
        assert y * TruncDiv(x, y) == -(Abs(y) * q);
      }
    }
  }

  /** Truncated division of two i32 values fits in i32 except for I32_MIN / -1,
      and so does the remainder. */
  lemma DivFitsI32(x: i32, y: i32)
    requires y != 0 && !(x == I32_MIN && y == -1)
    ensures InI32(TruncDiv(x, y)) && InI32(TruncRem(x, y))
  {
    var a, b := Abs(x), Abs(y);
    QuotientBound(a, b);
    TruncDivision(x, y);
  }

  lemma QuotientBound(a: nat, b: nat)
    requires b >= 1
    ensures a / b <= a
    ensures b >= 2 ==> 2 * (a / b) <= a
  {
    var q, m := a / b, a % b;
    assert a == b * q + m && m >= 0;
    assert b * q >= q;
    if b >= 2 {
      assert b * q >= 2 * q;
    }
  }
}
