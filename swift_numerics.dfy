/**
 * The parts of Swift's numeric model that the domain model depends on:
 * the 64-bit `Int` and `UInt` ranges, and the truncating conversion from a
 * floating-point value to an integer (`Int(x)`, `UInt(x)`), which rounds
 * toward zero and traps when the truncated value is out of range.
 * Floating-point values themselves are abstracted to exact `real`s.
 */
module SwiftNumerics {

  const IntMin: int := -0x8000_0000_0000_0000
  const IntMax: int := 0x7fff_ffff_ffff_ffff
  const UIntMax: int := 0xffff_ffff_ffff_ffff

  /** Swift's `Int` on a 64-bit platform. */
  type Int64 = x: int | IntMin <= x <= IntMax

  /** Swift's `UInt` on a 64-bit platform. */
  type UInt64 = x: int | 0 <= x <= UIntMax

  /** `n` is `x` with its fractional part dropped: same sign, and less than one away toward zero. */
  predicate IsWholePart(n: int, x: real) {
    && (0.0 <= x ==> n as real <= x < n as real + 1.0)
    && (x < 0.0 ==> n as real - 1.0 < x <= n as real)
  }

  /** Conversion of a floating-point value to an integer, rounding toward zero. */
  function Trunc(x: real): (n: int)
    ensures IsWholePart(n, x)
  {
    if 0.0 <= x then x.Floor else -((-x).Floor)
  }

  /** The whole part is unique, so `IsWholePart` is a complete specification of `Trunc`. */
  lemma WholePartUnique(n: int, m: int, x: real)
    requires IsWholePart(n, x) && IsWholePart(m, x)
    ensures n == m
  {
  }

  /** Converting a whole number loses nothing. */
  lemma TruncOfInteger(k: int)
    ensures Trunc(k as real) == k
  {
    WholePartUnique(Trunc(k as real), k, k as real);
  }

  /**
   * A truncated value is non-negative exactly when the value is above -1; this is
   * the range in which Swift's `UInt(x)` does not trap for being negative.
   */
  lemma TruncNonNegative(x: real)
    ensures 0 <= Trunc(x) <==> -1.0 < x
  {
  }
}
