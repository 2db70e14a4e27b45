/** Go's int64: its range, wrap-around of sums and products, and division towards zero. */
module Integers {
  const MAX_INT64: int := 0x7FFF_FFFF_FFFF_FFFF
  const MIN_INT64: int := -0x8000_0000_0000_0000

  type Int64 = x: int | MIN_INT64 <= x <= MAX_INT64

  /** Two's-complement wrap-around of a 64-bit result. */
  function Wrap64(x: int): Int64 {
    (x - MIN_INT64) % 0x1_0000_0000_0000_0000 + MIN_INT64
  }

  /** Division by a positive number, rounding towards zero. */
  function Quotient(a: int, b: int): (q: Int64)
    requires MIN_INT64 <= a <= MAX_INT64 && b > 0
    ensures a >= 0 ==> q >= 0
    ensures a <= -b ==> q < 0
  {
    QuotientShrinks(if a >= 0 then a else -a, b);
    if a >= 0 then a / b else -(-a / b)
  }

  lemma QuotientShrinks(a: nat, b: int)
    requires b > 0
    ensures 0 <= a / b <= a
    ensures b <= a ==> a / b >= 1
  {
    var q, r := a / b, a % b;
    assert a == b * q + r;
    MultipleIsLarger(b, q);
    if q == 0 {
      assert b * q == 0;
    }
  }

  lemma MultipleIsLarger(b: int, q: int)
    requires b > 0
    ensures q >= 0 ==> b * q >= q
    ensures q < 0 ==> b * q <= q
  {
    assert b * q == (b - 1) * q + q;
  }

  /** A result at most one wrap too large comes back 2^64 smaller, any other in range unchanged. */
  lemma WrapOnce(x: int)
    requires MIN_INT64 <= x <= MAX_INT64 + 0x1_0000_0000_0000_0000
    ensures Wrap64(x) == if x <= MAX_INT64 then x else x - 0x1_0000_0000_0000_0000
  {
  }

  /** Wrapping shifts a number by a multiple of 2^64 into range, and there is only one such shift. */
  lemma WrapIsTheShift(x: int, k: int)
    requires -0x8000_0000_0000_0000 <= x + k * 0x1_0000_0000_0000_0000 < 0x8000_0000_0000_0000
    ensures Wrap64(x) == x + k * 0x1_0000_0000_0000_0000
  {
  }
}
