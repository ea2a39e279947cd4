/** Machine integer widths and the few product and quotient facts the other modules rest on. */
module Arithmetic {

  const U64_MAX: nat := 0xFFFF_FFFF_FFFF_FFFF
  const U128_MAX: nat := 0xFFFF_FFFF_FFFF_FFFF_FFFF_FFFF_FFFF_FFFF

  type U64 = n: nat | n <= U64_MAX
  type U128 = n: nat | n <= U128_MAX

  function Min(a: int, b: int): int {
    if a <= b then a else b
  }

  /** Rust's `saturating_sub` on unsigned integers. */
  function SatSub(a: nat, b: nat): nat {
    if a <= b then 0 else a - b
  }

  /** Rust's `checked_add(..).unwrap_or(u128::MAX)`. */
  function AddOrMax(a: U128, b: U128): U128 {
    if a + b <= U128_MAX then a + b else U128_MAX
  }

  lemma {:induction false} MulMono(a: nat, b: nat, c: nat, d: nat)
    requires a <= c && b <= d
    ensures a * b <= c * d
  {
    assert a * b <= c * b by { assert (c - a) * b >= 0; }
    assert c * b <= c * d by { assert c * (d - b) >= 0; }
  }

  /** The defining bracket of floor division. */
  lemma {:induction false} DivBracket(n: nat, d: nat)
    requires 0 < d
    ensures n / d * d <= n < n / d * d + d
  {
    assert n == n / d * d + n % d;
  }

  /** A quotient is the only integer inside its bracket. */
  lemma {:induction false} DivUnique(n: nat, d: nat, q: nat)
    requires 0 < d
    requires q * d <= n < q * d + d
    ensures n / d == q
  {
    DivBracket(n, d);
    var p := n / d;
    if p < q {
      assert (p + 1) * d <= q * d by { MulMono(p + 1, d, q, d); }
    } else if q < p {
      assert (q + 1) * d <= p * d by { MulMono(q + 1, d, p, d); }
    }
  }

  /** Anything that fits under `n` in steps of `d` fits under the quotient. */
  lemma {:induction false} DivAtLeast(n: nat, d: nat, q: nat)
    requires 0 < d
    requires q * d <= n
    ensures q <= n / d
  {
    DivBracket(n, d);
    var p := n / d;
    if p < q {
      assert (p + 1) * d <= q * d by { MulMono(p + 1, d, q, d); }
    }
  }

  lemma {:induction false} DivAtMost(n: nat, d: nat, q: nat)
    requires 0 < d
    requires n <= q * d
    ensures n / d <= q
  {
    DivBracket(n, d);
    var p := n / d;
    if q < p {
      assert (q + 1) * d <= p * d by { MulMono(q + 1, d, p, d); }
    }
  }

  lemma {:induction false} DivMono(a: nat, b: nat, d: nat)
    requires 0 < d && a <= b
    ensures a / d <= b / d
  {
    DivBracket(a, d);
    DivAtLeast(b, d, a / d);
  }

  lemma {:induction false} DivAntitone(a: nat, small: nat, large: nat)
    requires 0 < small <= large
    ensures a / large <= a / small
  {
    DivBracket(a, large);
    MulMono(a / large, small, a / large, large);
    DivAtLeast(a, small, a / large);
  }

  lemma {:induction false} DivShrinks(a: nat, d: nat)
    requires 0 < d
    ensures a / d <= a
  {
    MulMono(a, 1, a, d);
    DivAtMost(a, d, a);
  }

  /** Flooring two parts separately loses at least as much as flooring their sum. */
  lemma {:induction false} DivSuperadditive(a: nat, b: nat, d: nat)
    requires 0 < d
    ensures a / d + b / d <= (a + b) / d
  {
    DivBracket(a, d);
    DivBracket(b, d);
    SumFits(a / d, b / d, d, a, b);
    DivAtLeast(a + b, d, a / d + b / d);
  }

  lemma {:induction false} SumFits(p: nat, q: nat, d: nat, a: nat, b: nat)
    requires p * d <= a && q * d <= b
    ensures (p + q) * d <= a + b
  {
    MulDistributes(p, q, d);
  }

  lemma {:induction false} MulDistributes(a: int, b: int, c: int)
    ensures (a + b) * c == a * c + b * c
  {
  }
}
