/** u128 fixed point at scale 1e18: `1.0` is FP_SCALE, and every checked operation
    carries the fallback the program gives it. */
module FixedPoint {
  import opened Arithmetic

  const FP_SCALE: U128 := 1_000_000_000_000_000_000
  const LN10_FP: U128 := 2_302_585_092_994_045_684
  const LN2_FP: U128 := 693_147_180_559_945_309

  /** A checked product that falls back to 0 on overflow. */
  function FpMul(a: U128, b: U128): U128 {
    if a * b <= U128_MAX then
      DivShrinks(a * b, FP_SCALE);
      a * b / FP_SCALE
    else 0
  }

  /** `a * b / d` with a checked product that falls back. */
  function MulDiv(a: U128, b: U128, d: nat, fallback: U128): U128
    requires 0 < d
  {
    if a * b <= U128_MAX then
      DivShrinks(a * b, d);
      a * b / d
    else fallback
  }

  function CheckedDiv(a: U128, k: nat): U128 {
    if k == 0 then 0
    else
      DivShrinks(a, k);
      a / k
  }

  lemma {:induction false} FpMulMonotone(a: U128, b: U128, c: U128, d: U128)
    requires a <= c && b <= d && c * d <= U128_MAX
    ensures FpMul(a, b) <= FpMul(c, d)
  {
    MulMono(a, b, c, d);
    DivMono(a * b, c * d, FP_SCALE);
  }

  /** Multiplying by a fixed-point number that is at most one never grows and never overflows. */
  lemma {:induction false} FpMulByFraction(a: U128, u: U128)
    requires a <= FP_SCALE && u <= FP_SCALE
    ensures a * u <= U128_MAX && FpMul(a, u) <= a
  {
    MulMono(a, u, FP_SCALE, FP_SCALE);
    MulMono(a, u, a, FP_SCALE);
    DivAtMost(a * u, FP_SCALE, a);
  }
}
