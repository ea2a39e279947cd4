/** `exp_fp`: the Taylor loop, the value it settles on, and how far that is from e^x. */
module ExpSeries {
  import opened Arithmetic
  import opened FixedPoint

  const MAX_EXP_TERMS: nat := 64
  // No quotient by FP_SCALE of a u128 exceeds this.
  const EXP_TERM_CEILING: nat := 340_282_366_920_938_463_463

  /** The k-th Taylor term as the loop computes it, floors and fallback included. */
  function ExpTerm(x: U128, k: nat): U128 {
    if k == 0 then FP_SCALE
    else
      CheckedDiv(FpMul(ExpTerm(x, k - 1), x), k)
  }

  function ExpSum(x: U128, n: nat): nat {
    if n == 0 then FP_SCALE else ExpSum(x, n - 1) + ExpTerm(x, n)
  }

  /** What `exp_fp` returns, for every argument: a term that vanishes stays vanished,
      so the early exit of the loop does not change the sum. */
  function ExpFp(x: U128): nat {
    ExpSum(x, MAX_EXP_TERMS)
  }

  lemma {:induction false} ExpTermStaysZero(x: U128, k: nat, n: nat)
    requires k <= n && ExpTerm(x, k) == 0
    ensures ExpTerm(x, n) == 0
    decreases n
  {
    if k == n {
    } else {
      ExpTermStaysZero(x, k, n - 1);
      ZeroTerm(x, n);
    }
  }

  lemma {:induction false} ZeroTerm(x: U128, n: nat)
    requires 0 < n
    ensures FpMul(0, x) / n == 0
  {
    assert 0 * x == 0;
    DivShrinks(0, n);
  }

  lemma {:induction false} ExpSumSettles(x: U128, k: nat, n: nat)
    requires k <= n && ExpTerm(x, k + 1) == 0
    ensures ExpSum(x, n) == ExpSum(x, k)
    decreases n
  {
    if k == n {
    } else {
      ExpSumSettles(x, k, n - 1);
      ExpTermStaysZero(x, k + 1, n);
    }
  }

  lemma {:induction false} ExpSumBound(x: U128, n: nat)
    ensures ExpSum(x, n) <= FP_SCALE + n * EXP_TERM_CEILING
  {
    if n == 0 {
    } else {
      ExpSumBound(x, n - 1);
      FpMulBound(ExpTerm(x, n - 1), x);
      DivShrinks(FpMul(ExpTerm(x, n - 1), x), n);
      assert ExpTerm(x, n) <= EXP_TERM_CEILING;
      MulDistributes(n - 1, 1, EXP_TERM_CEILING);
    }
  }

  lemma {:induction false} FpMulBound(a: U128, b: U128)
    ensures FpMul(a, b) <= EXP_TERM_CEILING
  {
    if a * b <= U128_MAX {
      DivMono(a * b, U128_MAX, FP_SCALE);
    }
  }

  /** The Taylor loop, with every checked operation and its fallback. */
  method ExpFixedPoint(x: U128) returns (sum: U128)
    ensures sum == ExpFp(x)
  {
    var term: U128 := FP_SCALE;
    sum := FP_SCALE;
    var k: U128 := 1;
    while true
      invariant 1 <= k <= MAX_EXP_TERMS + 1
      invariant term == ExpTerm(x, k - 1)
      invariant sum == ExpSum(x, k - 1)
      decreases MAX_EXP_TERMS + 2 - k
    {
      term := FpMul(term, x);
      term := CheckedDiv(term, k);
      assert term == ExpTerm(x, k);
      if term == 0 || k > MAX_EXP_TERMS {
        break;
      }
      ExpSumBound(x, k);
      sum := AddOrMax(sum, term);
      k := AddOrMax(k, 1);
    }
    if k <= MAX_EXP_TERMS {
      ExpSumSettles(x, k - 1, MAX_EXP_TERMS);
    }
  }

  /** On the documented range no term exceeds three units, so no product overflows. */
  lemma {:induction false} ExpTermBound(x: U128, k: nat)
    requires x <= LN10_FP
    ensures ExpTerm(x, k) <= 3 * FP_SCALE
    ensures ExpTerm(x, k) * x <= U128_MAX
  {
    if k == 0 {
    } else {
      ExpTermBound(x, k - 1);
      var p := ExpTerm(x, k - 1);
      if k == 1 {
        DivAtMost(p * x, FP_SCALE, x);
      } else if k == 2 {
        ExpTermOne(x);
        MulMono(p, x, LN10_FP, LN10_FP);
        DivMono(p * x, LN10_FP * LN10_FP, FP_SCALE);
      } else {
        ExpTermLateBound(p, x, k);
      }
    }
    MulMono(ExpTerm(x, k), x, 3 * FP_SCALE, LN10_FP);
  }

  lemma {:induction false} ExpTermLateBound(p: U128, x: U128, k: nat)
    requires x <= LN10_FP && p <= 3 * FP_SCALE && 3 <= k
    ensures FpMul(p, x) / k <= 3 * FP_SCALE
  {
    MulMono(p, x, 3 * FP_SCALE, LN10_FP);
    FpMulMonotone(p, x, 3 * FP_SCALE, LN10_FP);
    DivAntitone(FpMul(p, x), 3, k);
  }

  lemma {:induction false} ExpTermOne(x: U128)
    requires x <= LN10_FP
    ensures ExpTerm(x, 1) == x
  {
    assert ExpTerm(x, 0) == FP_SCALE;
    MulMono(FP_SCALE, x, FP_SCALE, LN10_FP);
    DivUnique(FP_SCALE * x, FP_SCALE, x);
  }

  lemma {:induction false} ExpTermMonotone(x: U128, y: U128, k: nat)
    requires x <= y <= LN10_FP
    ensures ExpTerm(x, k) <= ExpTerm(y, k)
  {
    if k == 0 {
    } else {
      ExpTermMonotone(x, y, k - 1);
      ExpTermBound(y, k - 1);
      FpMulMonotone(ExpTerm(x, k - 1), x, ExpTerm(y, k - 1), y);
      DivMono(FpMul(ExpTerm(x, k - 1), x), FpMul(ExpTerm(y, k - 1), y), k);
    }
  }

  lemma {:induction false} ExpSumMonotone(x: U128, y: U128, n: nat)
    requires x <= y <= LN10_FP
    ensures ExpSum(x, n) <= ExpSum(y, n)
  {
    if n == 0 {
    } else {
      ExpSumMonotone(x, y, n - 1);
      ExpTermMonotone(x, y, n);
    }
  }

  /** Two runs of the loop, floors included, keep the order of their arguments. */
  lemma {:induction false} ExpMonotone(x: U128, y: U128)
    requires x <= y <= LN10_FP
    ensures ExpFp(x) <= ExpFp(y)
  {
    ExpSumMonotone(x, y, MAX_EXP_TERMS);
  }

  // ------------------------------------------------- exact series and error bound

  /** The exact k-th Taylor term of e^y, in units of 1 / FP_SCALE. */
  ghost function TaylorTerm(y: real, k: nat): real {
    if k == 0 then FP_SCALE as real else TaylorTerm(y, k - 1) * y / k as real
  }

  ghost function TaylorSum(y: real, n: nat): real {
    if n == 0 then FP_SCALE as real else TaylorSum(y, n - 1) + TaylorTerm(y, n)
  }

  /** The real number a fixed-point argument stands for. */
  ghost function AsReal(x: U128): real {
    x as real / FP_SCALE as real
  }

  lemma {:induction false} RealMulMono(a: real, b: real, c: real)
    requires 0.0 <= c && a <= b
    ensures a * c <= b * c
  {
  }

  lemma {:induction false} RealCancel(a: real, b: real, c: real)
    requires 0.0 < c
    ensures a * c <= b * c <==> a <= b
    ensures a * c < b * c <==> a < b
  {
    if a < b {
      assert 0.0 < (b - a) * c;
    } else {
      RealMulMono(b, a, c);
    }
  }

  /** Two floors in a row are one floor by the product of the divisors. */
  lemma {:induction false} NestedFloor(n: nat, a: nat, b: nat)
    requires 0 < a && 0 < b
    ensures n / a / b * b * a <= n < (n / a / b + 1) * b * a
  {
    var q := n / a;
    var t := q / b;
    DivBracket(n, a);
    DivBracket(q, b);
    MulMono(t * b, a, q, a);
    MulMono(q + 1, a, (t + 1) * b, a);
    assert (q + 1) * a == q * a + a;
  }

  lemma {:induction false} RealOfProduct(a: nat, b: nat)
    ensures (a * b) as real == a as real * b as real
  {
  }

  /** The bracket of one loop step with the common factor `a` taken out. */
  lemma {:induction false} RealBracket(p: nat, x: nat, y: real, a: nat, b: nat, t: nat)
    requires 0 < a && x as real == y * a as real
    requires t * b * a <= p * x < (t + 1) * b * a
    ensures t as real * b as real <= p as real * y < (t as real + 1.0) * b as real
  {
    RealOfProduct(p, x);
    RealOfProduct(t * b, a);
    RealOfProduct((t + 1) * b, a);
    RealOfProduct(t, b);
    RealOfProduct(t + 1, b);
    assert p as real * x as real == p as real * y * a as real;
    RealCancel(t as real * b as real, p as real * y, a as real);
    RealCancel(p as real * y, (t as real + 1.0) * b as real, a as real);
  }

  /** `t` is the floor of `p * y / k`, or at least as close below it. */
  ghost predicate Bracketed(p: real, y: real, k: real, t: real) {
    t * k <= p * y < (t + 1.0) * k
  }

  /** Both floors of one loop step together lose less than one unit. */
  lemma {:induction false} StepFloor(p: U128, x: U128, y: real, k: nat, t: nat)
    requires p * x <= U128_MAX && 0 < k && t == CheckedDiv(FpMul(p, x), k)
    requires x as real == y * FP_SCALE as real
    ensures Bracketed(p as real, y, k as real, t as real)
  {
    NestedFloor(p * x, FP_SCALE, k);
    RealBracket(p, x, y, FP_SCALE, k, t);
  }

  /** How far the k-th computed term can lie below the exact one. */
  ghost function ErrorBound(k: nat): real {
    if k == 0 then 0.0 else if k == 1 then 1.0 else if k == 2 then 2.16 else 3.0
  }

  ghost predicate FlooredAt(t: nat -> real, y: real, k: nat)
    requires 0 < k
  {
    Bracketed(t(k - 1), y, k as real, t(k))
  }

  ghost predicate FlooredBy(t: nat -> real, y: real) {
    forall k: nat | 0 < k :: FlooredAt(t, y, k)
  }

  ghost predicate ExactAt(e: nat -> real, y: real, k: nat)
    requires 0 < k
  {
    e(k) * k as real == e(k - 1) * y
  }

  ghost predicate ExactBy(e: nat -> real, y: real) {
    forall k: nat | 0 < k :: ExactAt(e, y, k)
  }

  lemma {:induction false} ErrorBoundStep(k: nat)
    requires 0 < k
    ensures ErrorBound(k - 1) * 2.303 + k as real <= ErrorBound(k) * k as real
  {
  }

  lemma {:induction false} ErrorStep(p: real, exact: real, y: real, k: real, bound: real, t: real, e: real, next: real)
    requires 0.0 <= y <= 2.303 && 0.0 < k
    requires 0.0 <= exact - p <= bound
    requires Bracketed(p, y, k, t)
    requires e * k == exact * y
    requires bound * 2.303 + k <= next * k
    ensures 0.0 <= e - t < next
  {
    var carried, lost := (exact - p) * y, p * y - t * k;
    ErrorCarried(exact - p, y, bound);
    RealDistributes(t + 1.0, t, k);
    RealDistributes(exact, p, y);
    RealDistributes(e, t, k);
    RealBetween(e - t, k, next, carried + lost);
  }

  lemma {:induction false} RealSwap(a: real, b: real)
    ensures a * b == b * a
  {
  }

  lemma {:induction false} TailProduct(p: real, y: real)
    requires 0.0 <= y <= 2.303 && 0.0 <= p
    ensures 0.0 <= p * y <= 2.303 * p
  {
    RealMulMono(0.0, y, p);
    RealMulMono(y, 2.303, p);
    RealSwap(y, p);
    assert 0.0 * p == 0.0;
  }

  lemma {:induction false} ErrorCarried(d: real, y: real, bound: real)
    requires 0.0 <= y <= 2.303 && 0.0 <= d <= bound
    ensures 0.0 <= d * y <= bound * 2.303
  {
    TailProduct(d, y);
    assert 2.303 * d <= 2.303 * bound;
  }

  lemma {:induction false} RealBetween(d: real, k: real, next: real, product: real)
    requires 0.0 < k && product == d * k && 0.0 <= product < next * k
    ensures 0.0 <= d < next
  {
    RealCancel(0.0, d, k);
    RealCancel(d, next, k);
  }

  lemma {:induction false} RealDistributes(a: real, b: real, c: real)
    ensures (a - b) * c == a * c - b * c
  {
  }

  /** A series whose every term is floored stays this close below the exact one. */
  lemma {:induction false} FlooredSeriesError(t: nat -> real, e: nat -> real, y: real, k: nat)
    requires t(0) == e(0) && 0.0 <= y <= 2.303 && FlooredBy(t, y) && ExactBy(e, y)
    ensures 0.0 <= e(k) - t(k) <= ErrorBound(k)
    ensures 0 < k ==> e(k) - t(k) < 3.0
  {
    if k == 0 {
    } else {
      FlooredSeriesError(t, e, y, k - 1);
      ErrorBoundStep(k);
      assert FlooredAt(t, y, k) && ExactAt(e, y, k);
      ErrorStep(t(k - 1), e(k - 1), y, k as real, ErrorBound(k - 1), t(k), e(k), ErrorBound(k));
    }
  }

  ghost function Computed(x: U128): nat -> real {
    (k: nat) => ExpTerm(x, k) as real
  }

  ghost function Exact(y: real): nat -> real {
    (k: nat) => TaylorTerm(y, k)
  }

  lemma {:induction false} ExactIsExact(y: real)
    ensures ExactBy(Exact(y), y)
  {
    forall k: nat | 0 < k ensures ExactAt(Exact(y), y, k) {
      TaylorTermTimes(y, k);
    }
  }

  lemma {:induction false} TaylorTermTimes(y: real, k: nat)
    requires 0 < k
    ensures TaylorTerm(y, k) * k as real == TaylorTerm(y, k - 1) * y
  {
  }

  lemma {:induction false} AsRealBound(x: U128)
    requires x <= LN10_FP
    ensures 0.0 <= AsReal(x) <= 2.303
    ensures x as real == AsReal(x) * FP_SCALE as real
  {
  }

  lemma {:induction false} ComputedIsFloored(x: U128)
    requires x <= LN10_FP
    ensures FlooredBy(Computed(x), AsReal(x))
  {
    AsRealBound(x);
    forall k: nat | 0 < k ensures FlooredAt(Computed(x), AsReal(x), k) {
      ExpStepFloor(x, AsReal(x), k);
    }
  }

  lemma {:induction false} ExpStepFloor(x: U128, y: real, k: nat)
    requires x <= LN10_FP && x as real == y * FP_SCALE as real && 0 < k
    ensures FlooredAt(Computed(x), y, k)
  {
    ExpTermBound(x, k - 1);
    StepFloor(ExpTerm(x, k - 1), x, y, k, ExpTerm(x, k));
  }

  lemma {:induction false} ExpTermError(x: U128, k: nat)
    requires x <= LN10_FP
    ensures 0.0 <= TaylorTerm(AsReal(x), k) - ExpTerm(x, k) as real
    ensures 0 < k ==> TaylorTerm(AsReal(x), k) - ExpTerm(x, k) as real < 3.0
  {
    AsRealBound(x);
    ComputedIsFloored(x);
    ExactIsExact(AsReal(x));
    FlooredSeriesError(Computed(x), Exact(AsReal(x)), AsReal(x), k);
  }

  /** Every partial sum of the loop lies below the exact partial sum with the same
      number of terms, by less than three units per term after the first. */
  lemma {:induction false} ExpSumError(x: U128, n: nat)
    requires x <= LN10_FP
    ensures ExpSum(x, n) as real <= TaylorSum(AsReal(x), n)
    ensures 0 < n ==> TaylorSum(AsReal(x), n) < ExpSum(x, n) as real + 3.0 * n as real
    ensures n == 0 ==> TaylorSum(AsReal(x), n) == ExpSum(x, n) as real
  {
    if n == 0 {
    } else {
      ExpSumError(x, n - 1);
      ExpTermError(x, n);
    }
  }

  // ------------------------------------------------------- the value at ln 10

  /** One turn of the loop at ln 10, with its operands given as numbers. */
  lemma {:induction false} ExpAdvance(k: nat, p: U128, t: U128, sum: nat)
    requires 0 < k && ExpTerm(LN10_FP, k - 1) == p && ExpSum(LN10_FP, k - 1) == sum
    requires p * LN10_FP <= U128_MAX && p * LN10_FP / FP_SCALE / k == t
    ensures ExpTerm(LN10_FP, k) == t && ExpSum(LN10_FP, k) == sum + t
  {
  }

  lemma {:induction false} ExpAtLn10To27()
    ensures ExpTerm(LN10_FP, 27) == 0
    ensures ExpSum(LN10_FP, 27) == 9999999999999999986
  {
    ExpAdvance(1, 1000000000000000000, 2302585092994045684, 1000000000000000000);
    ExpAdvance(2, 2302585092994045684, 2650949055239199005, 3302585092994045684);
    ExpAdvance(3, 2650949055239199005, 2034678592293476196, 5953534148233244689);
    ExpAdvance(4, 2034678592293476196, 1171255148912266962, 7988212740526720885);
    ExpAdvance(5, 1171255148912266962, 539382929195581409, 9159467889438987847);
    ExpAdvance(6, 539382929195581409, 206995848696868096, 9698850818634569256);
    ExpAdvance(7, 206995848696868096, 68089365074437062, 9905846667331437352);
    ExpAdvance(8, 68089365074437062, 19597694626478523, 9973936032405874414);
    ExpAdvance(9, 19597694626478523, 5013928833775439, 9993533727032352937);
    ExpAdvance(10, 5013928833775439, 1154499778998434, 9998547655866128376);
    ExpAdvance(11, 1154499778998434, 241666725544246, 9999702155645126810);
    ExpAdvance(12, 241666725544246, 46371516642572, 9999943822370671056);
    ExpAdvance(13, 46371516642572, 8213412535439, 9999990193887313628);
    ExpAdvance(14, 8213412535439, 1350862947622, 9999998407299849067);
    ExpAdvance(15, 1350862947622, 207365125724, 9999999758162796689);
    ExpAdvance(16, 207365125724, 29842240456, 9999999965527922413);
    ExpAdvance(17, 29842240456, 4042017530, 9999999995370162869);
    ExpAdvance(18, 4042017530, 517060517, 9999999999412180399);
    ExpAdvance(19, 517060517, 62661886, 9999999999929240916);
    ExpAdvance(20, 62661886, 7214216, 9999999999991902802);
    ExpAdvance(21, 7214216, 791016, 9999999999999117018);
    ExpAdvance(22, 791016, 82790, 9999999999999908034);
    ExpAdvance(23, 82790, 8288, 9999999999999990824);
    ExpAdvance(24, 8288, 795, 9999999999999999112);
    ExpAdvance(25, 795, 73, 9999999999999999907);
    ExpAdvance(26, 73, 6, 9999999999999999980);
    ExpAdvance(27, 6, 0, 9999999999999999986);
  }

  lemma {:induction false} ExpTermAtLn10()
    ensures ExpTerm(LN10_FP, 27) == 0
  {
    ExpAtLn10To27();
  }

  /** At full supply the series stops after 26 terms, fourteen units below ten. */
  lemma {:induction false} ExpAtLn10()
    ensures ExpFp(LN10_FP) == 9_999_999_999_999_999_986
  {
    ExpAtLn10To27();
    assert ExpSum(LN10_FP, 26) == ExpSum(LN10_FP, 27) - ExpTerm(LN10_FP, 27);
    ExpSumSettles(LN10_FP, 26, MAX_EXP_TERMS);
  }

  /** The same turn at half of ln 10. */
  lemma {:induction false} ExpAdvanceAt(x: U128, k: nat, p: U128, t: U128, sum: nat)
    requires x == 1_151_292_546_497_022_842
    requires 0 < k && ExpTerm(x, k - 1) == p && ExpSum(x, k - 1) == sum
    requires p * 1_151_292_546_497_022_842 <= U128_MAX && p * 1_151_292_546_497_022_842 / FP_SCALE / k == t
    ensures ExpTerm(x, k) == t && ExpSum(x, k) == sum + t
  {
  }

  lemma {:induction false} ExpAtHalfTo21(x: U128)
    requires x == 1_151_292_546_497_022_842
    ensures ExpTerm(x, 21) == 0 && ExpSum(x, 20) == 3_162_277_660_168_379_323
  {
    ExpAdvanceAt(x, 1, 1000000000000000000, 1151292546497022842, 1000000000000000000);
    ExpAdvanceAt(x, 2, 1151292546497022842, 662737263809799751, 2151292546497022842);
    ExpAdvanceAt(x, 3, 662737263809799751, 254334824036684524, 2814029810306822593);
    ExpAdvanceAt(x, 4, 254334824036684524, 73203446807016685, 3068364634343507117);
    ExpAdvanceAt(x, 5, 73203446807016685, 16855716537361919, 3141568081150523802);
    ExpAdvanceAt(x, 6, 16855716537361919, 3234310135888563, 3158423797687885721);
    ExpAdvanceAt(x, 7, 3234310135888563, 531948164644039, 3161658107823774284);
    ExpAdvanceAt(x, 8, 531948164644039, 76553494634681, 3162190055988418323);
    ExpAdvanceAt(x, 9, 76553494634681, 9792829753467, 3162266609483053004);
    ExpAdvanceAt(x, 10, 9792829753467, 1127441190428, 3162276402312806471);
    ExpAdvanceAt(x, 11, 1127441190428, 118001330832, 3162277529753996899);
    ExpAdvanceAt(x, 12, 118001330832, 11321171055, 3162277647755327731);
    ExpAdvanceAt(x, 13, 11321171055, 1002613834, 3162277659076498786);
    ExpAdvanceAt(x, 14, 1002613834, 82450131, 3162277660079112620);
    ExpAdvanceAt(x, 15, 82450131, 6328281, 3162277660161562751);
    ExpAdvanceAt(x, 16, 6328281, 455356, 3162277660167891032);
    ExpAdvanceAt(x, 17, 455356, 30838, 3162277660168346388);
    ExpAdvanceAt(x, 18, 30838, 1972, 3162277660168377226);
    ExpAdvanceAt(x, 19, 1972, 119, 3162277660168379198);
    ExpAdvanceAt(x, 20, 119, 6, 3162277660168379317);
    ExpAdvanceAt(x, 21, 6, 0, 3162277660168379323);
  }

  /** Half of the way the series stops after 20 terms, at the root of ten to within nine units. */
  lemma {:induction false} ExpAtHalf(x: U128)
    requires x == 1_151_292_546_497_022_842
    ensures ExpFp(x) == 3_162_277_660_168_379_323
  {
    ExpAtHalfTo21(x);
    ExpFpSettles(x, 20);
  }

  // ------------------------------------------------------- distance from e^x

  lemma {:induction false} TailQuotient(p: real, k: real, q: real)
    requires 28.0 <= k && 0.0 <= p && q * k <= 2.303 * p
    ensures q <= p / 10.0
  {
    RealMulMono(28.0, k, p);
    RealSwap(k, p);
    assert (10.0 * q) * k == 10.0 * (q * k);
    RealCancel(10.0 * q, p, k);
  }

  lemma {:induction false} TailStep(y: real, k: real, p: real, q: real)
    requires 0.0 <= y <= 2.303 && 28.0 <= k && 0.0 <= p && q * k == p * y
    ensures 0.0 <= q <= p / 10.0
  {
    TailProduct(p, y);
    assert 0.0 * k == 0.0;
    RealCancel(0.0, q, k);
    TailQuotient(p, k, q);
  }

  /** Beyond the 27th term the exact series has less than one unit left. */
  lemma {:induction false} TailBound(y: real, n: nat)
    requires 0.0 <= y <= 2.303 && 27 <= n
    requires 0.0 <= TaylorTerm(y, 27) < 3.0
    ensures 0.0 <= TaylorTerm(y, n)
    ensures TaylorSum(y, n) + TaylorTerm(y, n) / 9.0 <= TaylorSum(y, 27) + TaylorTerm(y, 27) / 9.0
    ensures TaylorSum(y, 27) <= TaylorSum(y, n)
  {
    if 27 < n {
      TailBound(y, n - 1);
      TaylorTermTimes(y, n);
      TailStep(y, n as real, TaylorTerm(y, n - 1), TaylorTerm(y, n));
    }
  }

  lemma {:induction false} ExpSettlesBy27(x: U128)
    requires x <= LN10_FP
    ensures ExpTerm(x, 27) == 0 && ExpFp(x) == ExpSum(x, 26)
  {
    ExpTermVanishes(x);
    ExpFpSettles(x, 26);
  }

  lemma {:induction false} ExpTermVanishes(x: U128)
    requires x <= LN10_FP
    ensures ExpTerm(x, 27) == 0
  {
    ExpTermAtLn10();
    ExpTermMonotone(x, LN10_FP, 27);
  }

  lemma {:induction false} ExpFpSettles(x: U128, k: nat)
    requires k <= MAX_EXP_TERMS && ExpTerm(x, k + 1) == 0
    ensures ExpFp(x) == ExpSum(x, k)
  {
    ExpSumSettles(x, k, MAX_EXP_TERMS);
  }

  /** Every exact partial sum of e^x from the 27th on, hence e^x itself, exceeds what the
      loop returns by less than 82 units of 1e-18, and is never below it. */
  lemma {:induction false} ExpIsExponential(x: U128, n: nat)
    requires x <= LN10_FP && 27 <= n
    ensures ExpFp(x) as real <= TaylorSum(AsReal(x), n) < ExpFp(x) as real + 82.0
  {
    AsRealBound(x);
    ExpSettlesBy27(x);
    ExpTermError(x, 27);
    ExpSumError(x, 26);
    TailBound(AsReal(x), n);
    SumAt27(AsReal(x));
  }

  lemma {:induction false} SumAt27(y: real)
    ensures TaylorSum(y, 27) == TaylorSum(y, 26) + TaylorTerm(y, 27)
  {
  }
}
