/** Scalar value domains shared by every kernel family: the C integer types
    as ranges of `int`, the narrowing conversions the kernels use, the
    round-to-nearest-even conversion of `rintf` and `cvtps_epi32`, and the
    truncating conversion of `(int)` casts and `cvttps_epi32`. Floats are exact
    `real`s throughout. */
module Lanes {

  type Int8 = x: int | -128 <= x <= 127
  type Int16 = x: int | -32768 <= x <= 32767
  type Int32 = x: int | -0x8000_0000 <= x <= 0x7FFF_FFFF

  /** Signed saturation into [lo, hi] (the `packs` family). */
  function Saturate(x: int, lo: int, hi: int): (r: int)
    requires lo <= hi
    ensures lo <= r <= hi
    ensures lo <= x <= hi ==> r == x
    ensures x > hi ==> r == hi
    ensures x < lo ==> r == lo
  {
    if x > hi then hi else if x < lo then lo else x
  }

  function SatInt16(x: int): (r: Int16) { Saturate(x, -32768, 32767) }
  function SatInt8(x: int): (r: Int8) { Saturate(x, -128, 127) }

  /** Two's-complement reading of the low 16 bits of `x`: what a store into
      an `int16_t` lane keeps. */
  function WrapInt16(x: int): (r: Int16)
    ensures (r - x) % 0x1_0000 == 0
    ensures -32768 <= x <= 32767 ==> r == x
  {
    var u := x % 0x1_0000;
    if u >= 0x8000 then u - 0x1_0000 else u
  }

  function Pow2(k: nat): (p: nat)
    ensures p >= 1
  {
    if k == 0 then 1 else 2 * Pow2(k - 1)
  }

  /** Round to nearest, ties to even: `rintf` and `cvtps_epi32` under the
      default rounding mode. Its meaning is stated by `RintNearest` rather
      than as a postcondition: a postcondition would put `Rint(x) - x` into
      the context of every call, and at the many calls whose argument is a
      product of lanes that nonlinear fact keeps the solver from matching
      even equal calls. */
  function Rint(x: real): (r: int)
  {
    var f := x.Floor;
    var d := x - f as real;
    if d < 1.0 / 2.0 then f
    else if d > 1.0 / 2.0 then f + 1
    else if f % 2 == 0 then f
    else f + 1
  }

  /** The rounded value is an integer nearest to `x`; on a tie it is the
      even one. */
  lemma RintNearest(x: real)
    ensures -(1.0 / 2.0) <= Rint(x) as real - x <= 1.0 / 2.0
    ensures Rint(x) as real - x == 1.0 / 2.0 || x - Rint(x) as real == 1.0 / 2.0 ==> Rint(x) % 2 == 0
  {
  }

  /** The contract of `RintNearest` pins the rounding down: any integer
      within one half of `x`, and even on a tie, is `Rint(x)`. */
  lemma RintUnique(x: real, k: int)
    requires -(1.0 / 2.0) <= k as real - x <= 1.0 / 2.0
    requires k as real - x == 1.0 / 2.0 || x - k as real == 1.0 / 2.0 ==> k % 2 == 0
    ensures k == Rint(x)
  {
    RintNearest(x);
  }

  /** The `int32_t` lane `cvtps_epi32` / `cvttps_epi32` produce for the
      integer `k` the float rounds or truncates to: `k` when it fits, and the
      "integer indefinite" value `0x80000000` (INT32_MIN) when it does not. */
  function Indefinite(k: int): (r: Int32)
  {
    if -0x8000_0000 <= k <= 0x7FFF_FFFF then k else -0x8000_0000
  }

  /** Rounding leaves integers alone. */
  lemma RintOfInteger(k: int)
    ensures Rint(k as real) == k
  {
  }

  /** Rounding is monotone, so it maps [lo, hi] into [lo, hi] when both
      bounds are integers. */
  lemma RintMonotone(x: real, y: real)
    requires x <= y
    ensures Rint(x) <= Rint(y)
  {
  }

  lemma RintInRange(x: real, lo: int, hi: int)
    requires lo as real <= x <= hi as real
    ensures lo <= Rint(x) <= hi
  {
    RintMonotone(lo as real, x);
    RintMonotone(x, hi as real);
    RintOfInteger(lo);
    RintOfInteger(hi);
  }

  /** Truncation toward zero: C's `(int)` cast and `cvttps_epi32`. */
  function Trunc(x: real): (r: int)
    ensures x >= 0.0 ==> 0 <= r && r as real <= x < r as real + 1.0
    ensures x <= 0.0 ==> r <= 0 && r as real - 1.0 < x <= r as real
  {
    if x >= 0.0 then x.Floor else -((-x).Floor)
  }
}
