/** Big-endian positional numerals and the change of base that keeps leading zeros, the
    common meaning of every base58 codec in the repository. */
module Numerals {
  import opened Arithmetic

  type Digits = seq<nat>

  ghost predicate InBase(ds: Digits, base: nat) {
    forall i :: 0 <= i < |ds| ==> ds[i] < base
  }

  function FromDigits(ds: Digits, base: nat): nat {
    if ds == [] then 0 else FromDigits(ds[..|ds| - 1], base) * base + ds[|ds| - 1]
  }

  /** The digits of a number without leading zeros; none for zero. */
  function ToDigits(n: nat, base: nat): Digits
    requires 2 <= base
  {
    if n == 0 then []
    else
      QuotientSmaller(n, base);
      ToDigits(n / base, base) + [n % base]
  }

  lemma {:induction false} QuotientSmaller(n: nat, base: nat)
    requires 2 <= base && 0 < n
    ensures n / base < n
  {
    DivBracket(n, base);
    var q := n / base;
    assert q * 2 <= q * base by { MulMono(q, 2, q, base); }
  }

  lemma {:induction false} DivMod(n: nat, base: nat)
    requires 0 < base
    ensures n / base * base + n % base == n
  {
  }

  function LeadingZeros(ds: Digits): (z: nat)
    ensures z <= |ds|
    ensures forall i :: 0 <= i < z ==> ds[i] == 0
    ensures z < |ds| ==> ds[z] != 0
  {
    if ds != [] && ds[0] == 0 then 1 + LeadingZeros(ds[1..]) else 0
  }

  function Zeros(n: nat): (zs: Digits)
    ensures |zs| == n && forall i :: 0 <= i < n ==> zs[i] == 0
  {
    seq(n, _ => 0)
  }

  /** Change of base: as many leading zeros, then the same number in the new base. */
  function Recode(ds: Digits, from: nat, to: nat): Digits
    requires 2 <= to
  {
    Zeros(LeadingZeros(ds)) + ToDigits(FromDigits(ds, from), to)
  }

  predicate HasNonzero(ds: Digits) {
    exists i :: 0 <= i < |ds| && ds[i] != 0
  }

  lemma {:induction false} FromSnoc(ds: Digits, d: nat, base: nat)
    ensures FromDigits(ds + [d], base) == FromDigits(ds, base) * base + d
  {
    assert (ds + [d])[..|ds|] == ds;
  }

  lemma {:induction false} FromTo(n: nat, base: nat)
    requires 2 <= base
    ensures FromDigits(ToDigits(n, base), base) == n
  {
    if n != 0 {
      QuotientSmaller(n, base);
      FromTo(n / base, base);
      FromSnoc(ToDigits(n / base, base), n % base, base);
      DivMod(n, base);
    }
  }

  lemma {:induction false} ToDigitsShape(n: nat, base: nat)
    requires 2 <= base
    ensures InBase(ToDigits(n, base), base)
    ensures 0 < n ==> ToDigits(n, base) != [] && ToDigits(n, base)[0] != 0
  {
    if n != 0 {
      QuotientSmaller(n, base);
      ToDigitsShape(n / base, base);
      if n / base == 0 {
        DivBracket(n, base);
      }
    }
  }

  lemma {:induction false} FromPositive(ds: Digits, base: nat)
    requires 2 <= base && ds != [] && ds[0] != 0
    ensures 0 < FromDigits(ds, base)
  {
    if |ds| > 1 {
      FromPositive(ds[..|ds| - 1], base);
      MulMono(1, 1, FromDigits(ds[..|ds| - 1], base), base);
    }
  }

  /** Numerals without leading zeros are unique. */
  lemma {:induction false} ToFrom(ds: Digits, base: nat)
    requires 2 <= base && InBase(ds, base)
    requires ds != [] ==> ds[0] != 0
    ensures ToDigits(FromDigits(ds, base), base) == ds
  {
    if ds == [] {
    } else {
      var rest, d := ds[..|ds| - 1], ds[|ds| - 1];
      ToFrom(rest, base);
      FromPositive(ds, base);
      ToSnoc(FromDigits(rest, base), d, base);
    }
  }

  lemma {:induction false} ToSnoc(n: nat, d: nat, base: nat)
    requires 2 <= base && d < base && 0 < n * base + d
    ensures ToDigits(n * base + d, base) == ToDigits(n, base) + [d]
  {
    var m := n * base + d;
    DivUnique(m, base, n);
    assert m % base == m - m / base * base;
  }

  lemma {:induction false} LeadingZerosWeighNothing(z: nat, ds: Digits, base: nat)
    ensures FromDigits(Zeros(z) + ds, base) == FromDigits(ds, base)
    decreases |ds|, z
  {
    var all := Zeros(z) + ds;
    if ds != [] {
      assert all[..|all| - 1] == Zeros(z) + ds[..|ds| - 1];
      LeadingZerosWeighNothing(z, ds[..|ds| - 1], base);
    } else if z > 0 {
      assert all[..|all| - 1] == Zeros(z - 1) + [];
      LeadingZerosWeighNothing(z - 1, [], base);
    } else {
      assert all == [];
    }
  }

  lemma {:induction false} LeadingZerosUnique(z: nat, ds: Digits)
    requires ds != [] ==> ds[0] != 0
    ensures LeadingZeros(Zeros(z) + ds) == z
  {
    if z == 0 {
    } else {
      assert (Zeros(z) + ds)[1..] == Zeros(z - 1) + ds;
      LeadingZerosUnique(z - 1, ds);
    }
  }

  /** Splitting a digit list at its leading zeros. */
  lemma {:induction false} SplitZeros(ds: Digits, base: nat)
    requires 2 <= base && InBase(ds, base)
    ensures ds == Zeros(LeadingZeros(ds)) + ToDigits(FromDigits(ds, base), base)
  {
    var z := LeadingZeros(ds);
    assert ds == Zeros(z) + ds[z..];
    LeadingZerosWeighNothing(z, ds[z..], base);
    ToFrom(ds[z..], base);
  }

  /** Changing base there and back is the identity, leading zeros included. */
  lemma {:induction false} RecodeInverse(ds: Digits, from: nat, to: nat)
    requires 2 <= from && 2 <= to && InBase(ds, from)
    ensures InBase(Recode(ds, from, to), to)
    ensures Recode(Recode(ds, from, to), to, from) == ds
  {
    var z, n := LeadingZeros(ds), FromDigits(ds, from);
    ToDigitsShape(n, to);
    LeadingZerosUnique(z, ToDigits(n, to));
    LeadingZerosWeighNothing(z, ToDigits(n, to), to);
    FromTo(n, to);
    SplitZeros(ds, from);
  }

  /** A list weighs nothing exactly when it is all zeros. */
  lemma {:induction false} ZeroIffAllZeros(ds: Digits, base: nat)
    requires 2 <= base
    ensures FromDigits(ds, base) == 0 <==> !HasNonzero(ds)
    ensures FromDigits(ds, base) == 0 <==> LeadingZeros(ds) == |ds|
  {
    var z := LeadingZeros(ds);
    assert ds == Zeros(z) + ds[z..];
    LeadingZerosWeighNothing(z, ds[z..], base);
    if z < |ds| {
      FromPositive(ds[z..], base);
      assert ds[z] != 0;
    }
  }
}
