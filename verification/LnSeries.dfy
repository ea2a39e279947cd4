/** `ln_1p_fp`: the two series loops, the values they settle on, and their range. */
module LnSeries {
  import opened Arithmetic
  import opened FixedPoint
  import ExpSeries

  const HALF: U128 := 500_000_000_000_000_000
  const MAX_LN_TERMS: nat := 200

  /** An argument of the logarithm: a share between 0 and 1. */
  type Fraction = u: U128 | u <= FP_SCALE

  /** The running power `u^k` of both loops, floored at every step. */
  function Power(u: Fraction, k: nat): (p: Fraction)
    requires 0 < k
  {
    if k == 1 then u
    else
      FpMulByFraction(Power(u, k - 1), u);
      FpMul(Power(u, k - 1), u)
  }

  function Term(u: Fraction, k: nat): U128
    requires 0 < k
  {
    CheckedDiv(Power(u, k), k)
  }

  predicate Odd(k: nat) {
    k != 0 && !Odd(k - 1)
  }

  /** The lower loop after the k-th power: the second power is added, the third subtracted,
      and so on, because the loop starts with `subtract` off. */
  function AlternatingSum(u: Fraction, k: nat): U128
    requires 0 < k
  {
    if k == 1 then u
    else Signed(Odd(k), AlternatingSum(u, k - 1), Term(u, k))
  }

  /** One update of the lower loop. */
  function Signed(subtract: bool, sum: U128, t: U128): U128 {
    if subtract then SatSub(sum, t) else AddOrMax(sum, t)
  }

  /** The upper loop after the k-th power: every power is added. */
  function PlainSum(v: Fraction, k: nat): U128
    requires 0 < k
  {
    if k == 1 then v else AddOrMax(PlainSum(v, k - 1), Term(v, k))
  }

  /** The reduced argument of the upper branch. */
  function Reduced(u: Fraction): Fraction {
    (FP_SCALE - u) / 2
  }

  /** What `ln_1p_fp` returns. */
  function Ln1p(u: Fraction): U128 {
    if u < HALF then AlternatingSum(u, MAX_LN_TERMS)
    else SatSub(LN2_FP, PlainSum(Reduced(u), MAX_LN_TERMS))
  }

  lemma {:induction false} TermsShrink(u: Fraction, k: nat)
    requires 0 < k
    ensures Power(u, k + 1) <= Power(u, k) && Term(u, k + 1) <= Term(u, k)
  {
    FpMulByFraction(Power(u, k), u);
    DivMono(Power(u, k + 1), Power(u, k), k + 1);
    DivAntitone(Power(u, k), k, k + 1);
  }

  lemma {:induction false} TermsStayZero(u: Fraction, k: nat, n: nat)
    requires 0 < k <= n && Term(u, k) == 0
    ensures Term(u, n) == 0
    decreases n
  {
    if k == n {
    } else {
      TermsStayZero(u, k, n - 1);
      TermsShrink(u, n - 1);
    }
  }

  lemma {:induction false} SumsSettle(u: Fraction, k: nat, n: nat)
    requires 0 < k <= n && Term(u, k + 1) == 0
    ensures AlternatingSum(u, n) == AlternatingSum(u, k)
    ensures PlainSum(u, n) == PlainSum(u, k)
    decreases n
  {
    if k == n {
    } else {
      SumsSettle(u, k, n - 1);
      TermsStayZero(u, k + 1, n);
    }
  }

  /** `ln_1p_fp`: the branch, and the two series loops below it. */
  method LnFixedPoint(u: Fraction) returns (ln: U128)
    ensures ln == Ln1p(u)
  {
    if u < HALF {
      ln := AlternatingLoop(u);
    } else {
      var series := PlainLoop(Reduced(u));
      ln := SatSub(LN2_FP, series);
    }
  }

  method AlternatingLoop(u: Fraction) returns (ln: U128)
    ensures ln == AlternatingSum(u, MAX_LN_TERMS)
  {
    var term: Fraction, k, subtract := u, 2, false;
    ln := u;
    while true
      invariant 2 <= k <= MAX_LN_TERMS + 1
      invariant term == Power(u, k - 1) && ln == AlternatingSum(u, k - 1)
      invariant subtract == Odd(k)
      decreases MAX_LN_TERMS + 2 - k
    {
      FpMulByFraction(term, u);
      term := FpMul(term, u);
      var t := CheckedDiv(term, k);
      if t == 0 || k > MAX_LN_TERMS {
        break;
      }
      ln := Signed(subtract, ln, t);
      subtract := !subtract;
      k := AddOrMax(k, 1);
    }
    if k <= MAX_LN_TERMS {
      SumsSettle(u, k - 1, MAX_LN_TERMS);
    }
  }

  method PlainLoop(v: Fraction) returns (series: U128)
    ensures series == PlainSum(v, MAX_LN_TERMS)
  {
    var term: Fraction, k := v, 2;
    series := v;
    while true
      invariant 2 <= k <= MAX_LN_TERMS + 1
      invariant term == Power(v, k - 1) && series == PlainSum(v, k - 1)
      decreases MAX_LN_TERMS + 2 - k
    {
      FpMulByFraction(term, v);
      term := FpMul(term, v);
      var t := CheckedDiv(term, k);
      if t == 0 || k > MAX_LN_TERMS {
        break;
      }
      series := AddOrMax(series, t);
      k := AddOrMax(k, 1);
    }
    if k <= MAX_LN_TERMS {
      SumsSettle(v, k - 1, MAX_LN_TERMS);
    }
  }

  /** The terms shrink, so the alternating sums stay between the first and the second one,
      and neither the saturating subtraction nor the addition fallback is ever taken. */
  lemma {:induction false} AlternatingBracket(u: Fraction, k: nat)
    requires 2 <= k
    ensures Term(u, k) <= Term(u, 2) <= u <= AlternatingSum(u, k) <= u + Term(u, 2)
    ensures !Odd(k) ==> AlternatingSum(u, k) == AlternatingSum(u, k - 1) + Term(u, k)
    ensures Odd(k) ==> AlternatingSum(u, k) == AlternatingSum(u, k - 1) - Term(u, k)
    ensures Odd(k) ==> AlternatingSum(u, k) + Term(u, k) <= u + Term(u, 2)
    ensures !Odd(k) ==> u + Term(u, k) <= AlternatingSum(u, k)
  {
    FirstTerm(u);
    if k == 2 {
    } else {
      AlternatingBracket(u, k - 1);
      TermsShrink(u, k - 1);
      SignedStep(Odd(k), u, AlternatingSum(u, k - 1), Term(u, k - 1), Term(u, k), Term(u, 2));
    }
  }

  lemma {:induction false} SignedStep(subtract: bool, u: Fraction, sum: U128, previous: U128, t: U128, second: U128)
    requires t <= previous <= second <= u
    requires subtract ==> u + previous <= sum <= u + second
    requires !subtract ==> u <= sum && sum + previous <= u + second
    ensures Signed(subtract, sum, t) == if subtract then sum - t else sum + t
    ensures u <= Signed(subtract, sum, t) <= u + second
    ensures subtract ==> Signed(subtract, sum, t) + t <= u + second
    ensures !subtract ==> u + t <= Signed(subtract, sum, t)
  {
  }

  lemma {:induction false} FirstTerm(u: Fraction)
    ensures Term(u, 2) <= Term(u, 1) == u
  {
    TermsShrink(u, 1);
    DivUnique(u, 1, u);
  }

  lemma {:induction false} QuarterPower(v: Fraction, k: nat)
    requires v <= HALF / 2 && 0 < k
    ensures 4 * Power(v, k + 1) <= Power(v, k)
  {
    FpMulByFraction(Power(v, k), v);
    FpMulByQuarter(Power(v, k), v);
  }

  lemma {:induction false} FpMulByQuarter(p: Fraction, v: Fraction)
    requires v <= HALF / 2
    ensures 4 * FpMul(p, v) <= p
  {
    MulMono(p, v, p, HALF / 2);
    FpMulByFraction(p, v);
    DivBracket(p * v, FP_SCALE);
  }

  /** The upper sums stay below a third, so ln(2) minus them never saturates. */
  lemma {:induction false} PlainBound(v: Fraction, k: nat)
    requires v <= HALF / 2 && 0 < k
    ensures 3 * PlainSum(v, k) + Power(v, k) <= 4 * v
    ensures 1 < k ==> PlainSum(v, k) == PlainSum(v, k - 1) + Term(v, k)
  {
    if k == 1 {
    } else {
      PlainBound(v, k - 1);
      QuarterPower(v, k - 1);
      DivShrinks(Power(v, k), k);
    }
  }

  lemma {:induction false} PlainAtLeastFirst(v: Fraction, k: nat)
    requires v <= HALF / 2 && 0 < k
    ensures v <= PlainSum(v, k)
  {
    if k == 1 {
    } else {
      PlainAtLeastFirst(v, k - 1);
      PlainBound(v, k);
    }
  }

  lemma {:induction false} PowerMonotone(v: Fraction, w: Fraction, k: nat)
    requires v <= w && 0 < k
    ensures Power(v, k) <= Power(w, k)
  {
    if k == 1 {
    } else {
      PowerMonotone(v, w, k - 1);
      FpMulByFraction(Power(w, k - 1), w);
      FpMulMonotone(Power(v, k - 1), v, Power(w, k - 1), w);
    }
  }

  lemma {:induction false} PlainMonotone(v: Fraction, w: Fraction, k: nat)
    requires v <= w <= HALF / 2 && 0 < k
    ensures PlainSum(v, k) <= PlainSum(w, k)
  {
    if k == 1 {
    } else {
      PlainMonotone(v, w, k - 1);
      PlainBound(v, k);
      PlainBound(w, k);
      PowerMonotone(v, w, k);
      DivMono(Power(v, k), Power(w, k), k);
    }
  }

  /** On the whole domain the value lies in [0, ln 2], and the lower branch lies between
      its argument and its argument plus half its square. */
  lemma {:induction false} LnRange(u: Fraction)
    ensures Ln1p(u) <= LN2_FP
    ensures u < HALF ==> u <= Ln1p(u) <= u + Term(u, 2) < HALF + HALF / 4
    ensures HALF <= u ==> Ln1p(u) == LN2_FP - PlainSum(Reduced(u), MAX_LN_TERMS)
    ensures HALF <= u ==> LN2_FP - 4 * Reduced(u) / 3 - 1 <= Ln1p(u) <= LN2_FP - Reduced(u)
  {
    if u < HALF {
      AlternatingBracket(u, MAX_LN_TERMS);
      MulMono(u, u, HALF, HALF);
      DivMono(u * u, HALF * HALF, FP_SCALE);
      assert Power(u, 1) == u;
      assert Power(u, 2) <= HALF / 2;
      DivBracket(u * u, FP_SCALE);
      if u * u / FP_SCALE == HALF / 2 {
        MulMono(u, u, HALF - 1, HALF - 1);
      }
    } else {
      PlainBound(Reduced(u), MAX_LN_TERMS);
      PlainAtLeastFirst(Reduced(u), MAX_LN_TERMS);
    }
  }

  /** On the upper branch the value is exactly monotone, floors included. */
  lemma {:induction false} LnMonotoneAboveHalf(u: Fraction, w: Fraction)
    requires HALF <= u <= w
    ensures Ln1p(u) <= Ln1p(w)
  {
    LnRange(u);
    LnRange(w);
    PlainMonotone(Reduced(w), Reduced(u), MAX_LN_TERMS);
  }

  /** ln(1 + u) never exceeds u. The computed value respects that exactly on the upper
      branch and where the second term vanishes; elsewhere it adds the second term that
      the series subtracts. */
  lemma {:induction false} LnBelowArgumentIff(u: Fraction)
    ensures Ln1p(u) <= u <==> HALF <= u || u * u < 2 * FP_SCALE
  {
    LnRange(u);
    if u < HALF {
      assert Power(u, 1) == u;
      MulMono(u, u, HALF, HALF);
      assert Power(u, 2) == u * u / FP_SCALE;
      DivBracket(u * u, FP_SCALE);
      if u * u < 2 * FP_SCALE {
        assert Term(u, 2) == 0;
      } else {
        DivAtLeast(u * u, FP_SCALE, 2);
        LnAboveArgument(u);
      }
    }
  }

  lemma {:induction false} LnAboveArgument(u: Fraction)
    requires u < HALF && 2 <= Power(u, 2)
    ensures u < Ln1p(u)
  {
    var p := Power(u, 2);
    FpMulByFraction(p, u);
    MulMono(p, u, p, HALF);
    DivBracket(p * u, FP_SCALE);
    assert 2 * Power(u, 3) <= p;
    assert Term(u, 3) < Term(u, 2);
    AlternatingBracket(u, 3);
    AlternatingBracket(u, 2);
    AboveThird(u, MAX_LN_TERMS);
  }

  /** Every later sum stays above the third one. */
  lemma {:induction false} AboveThird(u: Fraction, k: nat)
    requires 3 <= k
    ensures AlternatingSum(u, 3) <= AlternatingSum(u, k)
    ensures !Odd(k) ==> AlternatingSum(u, 3) + Term(u, k) <= AlternatingSum(u, k)
  {
    if k == 3 {
    } else {
      AboveThird(u, k - 1);
      AlternatingBracket(u, k);
      TermsShrink(u, k - 1);
    }
  }

  /** From the third sum on, the upper sums grow by less than a ninth of the third power. */
  lemma {:induction false} PlainTail(v: Fraction, k: nat)
    requires v <= HALF / 2 && 3 <= k
    ensures 9 * PlainSum(v, k) + Power(v, k) <= 9 * PlainSum(v, 3) + Power(v, 3)
  {
    if k == 3 {
    } else {
      PlainTail(v, k - 1);
      PlainBound(v, k);
      QuarterPower(v, k - 1);
      DivAntitone(Power(v, k), 4, k);
    }
  }

  lemma {:induction false} QuarterOf(p: Fraction, v: Fraction)
    requires v == HALF / 2
    ensures FpMul(p, v) == p / 4
  {
    DivUnique(p * v, FP_SCALE, p / 4);
  }

  /** The first three terms at one quarter. */
  lemma {:induction false} ThreeTerms(v: Fraction)
    requires v == HALF / 2
    ensures Power(v, 3) == v / 16 && PlainSum(v, 3) == v + v / 8 + v / 48
  {
    assert Power(v, 1) == v && PlainSum(v, 1) == v;
    QuarterOf(v, v);
    assert Power(v, 2) == v / 4;
    QuarterOf(v / 4, v);
    assert Power(v, 3) == v / 16;
    assert PlainSum(v, 2) == v + v / 8 by { assert Term(v, 2) == v / 8; }
    assert Term(v, 3) == v / 48;
  }

  /** The value at one half is at least 0.404952. */
  lemma {:induction false} LnAtHalf(u: Fraction)
    requires u == HALF
    ensures 404_952_000_000_000_000 <= Ln1p(u)
  {
    ThreeTerms(Reduced(u));
    PlainTail(Reduced(u), MAX_LN_TERMS);
    LnRange(u);
  }

  /** A share of at most 0.345, for all that the flipped sign adds, stays below every share of one half
      or more. */
  lemma {:induction false} LnAcrossHalf(u: Fraction, w: Fraction)
    requires u <= 345_000_000_000_000_000 && HALF <= w
    ensures Ln1p(u) <= Ln1p(w)
  {
    LnRange(u);
    assert Power(u, 1) == u;
    MulMono(u, u, 345_000_000_000_000_000, 345_000_000_000_000_000);
    DivMono(u * u, 345_000_000_000_000_000 * 345_000_000_000_000_000, FP_SCALE);
    assert Power(u, 2) <= 119_025_000_000_000_000;
    DivMono(Power(u, 2), 119_025_000_000_000_000, 2);
    LnAtHalf(HALF);
    LnMonotoneAboveHalf(HALF, w);
  }

  lemma {:induction false} PlainVanishes(v: Fraction, k: nat)
    requires v == 0 && 0 < k
    ensures PlainSum(v, k) == 0
  {
    PlainBound(v, k);
  }

  /** The value reaches ln 2 exactly where the reduced argument vanishes. */
  lemma {:induction false} LnAtTopIff(u: Fraction)
    ensures Ln1p(u) == LN2_FP <==> FP_SCALE - 1 <= u
  {
    LnRange(u);
    if FP_SCALE - 1 <= u {
      PlainVanishes(Reduced(u), MAX_LN_TERMS);
    }
  }

  // ------------------------------------------------------------- order on the lower branch

  /** One unit times so many halvings. */
  function Halvings(k: nat): nat {
    if k == 0 then FP_SCALE else Halvings(k - 1) / 2
  }

  lemma {:induction false} HalfPower(u: Fraction, k: nat)
    requires u < HALF && 0 < k
    ensures 2 * Power(u, k + 1) <= Power(u, k)
  {
    HalfProduct(Power(u, k), u);
  }

  lemma {:induction false} HalfProduct(p: Fraction, u: Fraction)
    requires u <= HALF
    ensures 2 * FpMul(p, u) <= p
  {
    FpMulByFraction(p, u);
    MulMono(p, u, p, HALF);
    DivBracket(p * u, FP_SCALE);
  }

  lemma {:induction false} PowerHalves(u: Fraction, k: nat)
    requires u < HALF && 0 < k
    ensures Power(u, k) <= Halvings(k)
  {
    if k == 1 {
      assert Halvings(1) == FP_SCALE / 2;
    } else {
      PowerHalves(u, k - 1);
      HalfPower(u, k - 1);
    }
  }

  /** Where the halvings have used up the unit the terms have ended. */
  lemma {:induction false} LowerSumEnds(u: Fraction, k: nat, n: nat)
    requires u < HALF && 0 < k <= n && Halvings(k + 1) == 0
    ensures AlternatingSum(u, n) == AlternatingSum(u, k)
  {
    PowerHalves(u, k + 1);
    SumsSettle(u, k, n);
  }

  /** How far two floored products lie apart. */
  lemma {:induction false} ProductGap(p: Fraction, q: Fraction, u: Fraction, w: Fraction)
    requires p <= q && u <= w <= HALF
    ensures FpMul(p, u) <= FpMul(q, w)
    ensures 2 * FP_SCALE * (FpMul(q, w) - FpMul(p, u)) <= FP_SCALE * (q - p) + 2 * (p * (w - u)) + 2 * FP_SCALE
  {
    FpMulByFraction(p, u);
    FpMulByFraction(q, w);
    FpMulMonotone(p, u, q, w);
    DivBracket(p * u, FP_SCALE);
    DivBracket(q * w, FP_SCALE);
    assert q * w - p * u == (q - p) * w + p * (w - u);
    MulMono(q - p, w, q - p, HALF);
  }

  /** How far two floored quotients lie apart. */
  lemma {:induction false} QuotientGap(a: nat, b: nat, k: nat)
    requires a <= b && 3 <= k
    ensures 0 <= 3 * (b / k - a / k) <= b - a + 3
  {
    DivMono(a, b, k);
    DivBracket(a, k);
    DivBracket(b, k);
    var x := b / k - a / k;
    assert x * k <= b - a + k - 1 by { assert x * k == b / k * k - a / k * k; }
    if 1 < x {
      assert (x - 1) * k == x * k - k;
      MulMono(x - 1, 3, x - 1, k);
    }
  }

  /** What `n` steps keep of a difference `delta`, beside what the last powers can still cost: their
      difference `gap`, and the smaller one times `delta`. */
  predicate Keeps(sums: int, delta: int, gap: int, spread: int, n: int) {
    FP_SCALE * delta + FP_SCALE * gap + 4 * spread <= 3 * FP_SCALE * sums + 5 * FP_SCALE * n + FP_SCALE
  }

  lemma {:induction false} KeepsStep(
    subtract: bool, sums: int, t: nat, delta: int, gap: int, gap': int, spread: int, spread': int, n: int)
    requires Keeps(sums, delta, gap, spread, n)
    requires 2 * FP_SCALE * gap' <= FP_SCALE * gap + 2 * spread + 2 * FP_SCALE
    requires 2 * spread' <= spread && 3 * t <= gap' + 3
    ensures Keeps(if subtract then sums - t else sums + t, delta, gap', spread', n + 1)
  {
  }

  /** One step of both runs, from the powers `p <= q` to the powers and quotients after them. */
  lemma {:induction false} KeepsNext(
    subtract: bool, sums: int, u: Fraction, w: Fraction, p: Fraction, q: Fraction, p': Fraction, q': Fraction, k: nat, n: nat)
    requires u <= w <= HALF && p <= q && 3 <= k && p' == FpMul(p, u) && q' == FpMul(q, w)
    requires Keeps(sums, w - u, q - p, p * (w - u), n)
    ensures p' <= q'
    ensures Keeps(if subtract then sums - (q' / k - p' / k) else sums + (q' / k - p' / k), w - u, q' - p', p' * (w - u), n + 1)
  {
    ProductGap(p, q, u, w);
    HalfProduct(p, u);
    KeepsFrom(subtract, sums, w - u, p, q, p', q', k, n);
  }

  lemma {:induction false} KeepsFrom(
    subtract: bool, sums: int, delta: nat, p: nat, q: nat, p': nat, q': nat, k: nat, n: nat)
    requires 3 <= k && p' <= q' && 2 * p' <= p
    requires 2 * FP_SCALE * (q' - p') <= FP_SCALE * (q - p) + 2 * (p * delta) + 2 * FP_SCALE
    requires Keeps(sums, delta, q - p, p * delta, n)
    ensures Keeps(if subtract then sums - (q' / k - p' / k) else sums + (q' / k - p' / k), delta, q' - p', p' * delta, n + 1)
  {
    QuotientGap(p', q', k);
    SpreadHalves(p, p', delta);
    KeepsStep(subtract, sums, q' / k - p' / k, delta, q - p, q' - p', p * delta, p' * delta, n);
  }

  lemma {:induction false} SpreadHalves(p: nat, next: nat, d: nat)
    requires 2 * next <= p
    ensures 2 * (next * d) <= p * d
  {
    MulMono(2 * next, d, p, d);
  }

  /** One step of the lower loop on `u`, between neighbouring places of its powers and sums. */
  ghost predicate Row(u: Fraction, powers: seq<Fraction>, sums: seq<int>, i: nat)
    requires 0 < i < |powers| == |sums|
  {
    && powers[i] == FpMul(powers[i - 1], u)
    && sums[i] == if Odd(i + 2) then sums[i - 1] - powers[i] / (i + 2) else sums[i - 1] + powers[i] / (i + 2)
  }

  /** The run of the lower loop on `u`: powers and sums from the second term on. */
  ghost predicate LowerRun(u: Fraction, powers: seq<Fraction>, sums: seq<int>) {
    && 0 < |powers| == |sums|
    && powers[0] == FpMul(u, u) && sums[0] == u + powers[0] / 2
    && forall i: nat {:trigger Row(u, powers, sums, i)} :: 0 < i < |powers| ==> Row(u, powers, sums, i)
  }

  lemma {:induction false} SecondKeeps(u: Fraction, w: Fraction)
    requires u <= w <= HALF
    ensures var p, q := FpMul(u, u), FpMul(w, w);
            p <= q && Keeps(w + q / 2 - u - p / 2, w - u, q - p, p * (w - u), 0)
  {
    var d, p, q := w - u, FpMul(u, u), FpMul(w, w);
    ProductGap(u, w, u, w);
    MulMono(u, d, HALF, d);
    HalfProduct(u, u);
    MulMono(4 * p, d, FP_SCALE, d);
    DivMono(p, q, 2);
  }

  /** How much of a step in the argument survives in the sum at place `i`. */
  lemma {:induction false} RunsKeep(
    u: Fraction, ps: seq<Fraction>, us: seq<int>, w: Fraction, qs: seq<Fraction>, ws: seq<int>, i: nat)
    requires u <= w <= HALF && LowerRun(u, ps, us) && LowerRun(w, qs, ws) && i < |ps| && i < |qs|
    ensures ps[i] <= qs[i] && Keeps(ws[i] - us[i], w - u, qs[i] - ps[i], ps[i] * (w - u), i)
  {
    if i == 0 {
      SecondKeeps(u, w);
    } else {
      RunsKeep(u, ps, us, w, qs, ws, i - 1);
      assert Row(u, ps, us, i) && Row(w, qs, ws, i);
      KeepsNext(Odd(i + 2), ws[i - 1] - us[i - 1], u, w, ps[i - 1], qs[i - 1], ps[i], qs[i], i + 2, i - 1);
    }
  }

  lemma {:induction false} ExtendRun(u: Fraction, powers: seq<Fraction>, sums: seq<int>, p: Fraction, s: int)
    requires LowerRun(u, powers, sums) && p == FpMul(powers[|powers| - 1], u)
    requires var k := |powers| + 2;
             s == if Odd(k) then sums[k - 3] - p / k else sums[k - 3] + p / k
    ensures LowerRun(u, powers + [p], sums + [s])
  {
    forall i: nat {:trigger Row(u, powers + [p], sums + [s], i)} | 0 < i < |powers| + 1
      ensures Row(u, powers + [p], sums + [s], i)
    {
      if i < |powers| {
        assert Row(u, powers, sums, i);
      }
    }
  }

  lemma {:induction false} NextSum(u: Fraction, k: nat)
    requires 3 <= k
    ensures Power(u, k) == FpMul(Power(u, k - 1), u)
    ensures AlternatingSum(u, k) == if Odd(k) then AlternatingSum(u, k - 1) - Power(u, k) / k else AlternatingSum(u, k - 1) + Power(u, k) / k
  {
    AlternatingBracket(u, k);
  }

  lemma {:induction false} SecondSum(u: Fraction)
    ensures Power(u, 2) == FpMul(u, u) && AlternatingSum(u, 2) == u + Power(u, 2) / 2
  {
    assert Power(u, 1) == u;
    AlternatingBracket(u, 2);
  }

  /** What the lower loop computes is such a run. */
  lemma {:induction false} LoopRun(u: Fraction, n: nat) returns (powers: seq<Fraction>, sums: seq<int>)
    requires 2 <= n
    ensures LowerRun(u, powers, sums) && |powers| == n - 1
    ensures powers[n - 2] == Power(u, n) && sums[n - 2] == AlternatingSum(u, n)
  {
    if n == 2 {
      SecondSum(u);
      powers, sums := [Power(u, 2)], [AlternatingSum(u, 2)];
    } else {
      var ps, ss := LoopRun(u, n - 1);
      NextSum(u, n);
      ExtendRun(u, ps, ss, Power(u, n), AlternatingSum(u, n));
      powers, sums := ps + [Power(u, n)], ss + [AlternatingSum(u, n)];
    }
  }

  lemma {:induction false} KeptDifference(sums: int, delta: nat, gap: nat, spread: nat, n: nat)
    requires Keeps(sums, delta, gap, spread, n)
    ensures delta <= 3 * sums + 5 * n + 1
  {
  }

  lemma {:induction false} OrderOfRuns(u: Fraction, ps: seq<Fraction>, us: seq<int>, w: Fraction, qs: seq<Fraction>, ws: seq<int>)
    requires u <= w <= HALF && LowerRun(u, ps, us) && LowerRun(w, qs, ws) && |ps| == |qs|
    ensures var last := |ps| - 1; w - u <= 3 * (ws[last] - us[last]) + 5 * last + 1
  {
    var last := |ps| - 1;
    RunsKeep(u, ps, us, w, qs, ws, last);
    KeptDifference(ws[last] - us[last], w - u, qs[last] - ps[last], ps[last] * (w - u), last);
  }

  lemma {:induction false} OrderAt(u: Fraction, w: Fraction, k: nat)
    requires u <= w <= HALF && 2 <= k
    ensures w - u <= 3 * (AlternatingSum(w, k) - AlternatingSum(u, k)) + 5 * (k - 2) + 1
  {
    var ps, us := LoopRun(u, k);
    var qs, ws := LoopRun(w, k);
    OrderOfRuns(u, ps, us, w, qs, ws);
  }

  /** On the lower branch at least a third of every step in the argument survives, less 97 units lost to
      the floors: a larger argument never has a value smaller by more than 97 units of 1e-18, nor a
      smaller one at all once it is 291 units larger. */
  lemma {:induction false} LnNearlyMonotone(u: Fraction, w: Fraction)
    requires u <= w < HALF
    ensures 3 * Ln1p(u) + (w - u) <= 3 * Ln1p(w) + 291
    ensures u + 291 <= w ==> Ln1p(u) <= Ln1p(w)
  {
    SixtyTerms();
    NearlyMonotoneAt(u, w, 60, MAX_LN_TERMS);
  }

  lemma {:induction false} SixtyTerms()
    ensures Halvings(61) == 0
  {
    assert Halvings(8) == 3_906_250_000_000_000;
    assert Halvings(16) == 15_258_789_062_500;
    assert Halvings(24) == 59_604_644_775;
    assert Halvings(32) == 232_830_643;
    assert Halvings(40) == 909_494;
    assert Halvings(48) == 3_552;
    assert Halvings(56) == 13;
  }

  lemma {:induction false} NearlyMonotoneAt(u: Fraction, w: Fraction, k: nat, n: nat)
    requires u <= w < HALF && 2 <= k <= n && Halvings(k + 1) == 0
    ensures w - u <= 3 * (AlternatingSum(w, n) - AlternatingSum(u, n)) + 5 * (k - 2) + 1
  {
    LowerSumEnds(u, k, n);
    LowerSumEnds(w, k, n);
    OrderAt(u, w, k);
  }

  lemma {:induction false} NextPower(u: Fraction, k: nat, p: Fraction, q: Fraction)
    requires 0 < k && Power(u, k) == p && FpMul(p, u) == q
    ensures Power(u, k + 1) == q && Term(u, k + 1) == q / (k + 1)
  {
  }

  /** An argument whose sixth power is below six units, its powers, and the value they give. */
  predicate FiveTerms(u: Fraction, p2: Fraction, p3: Fraction, p4: Fraction, p5: Fraction, value: int) {
    && u < HALF && FpMul(u, u) == p2 && FpMul(p2, u) == p3 && FpMul(p3, u) == p4 && FpMul(p4, u) == p5
    && FpMul(p5, u) < 6 && value == u + p2 / 2 - p3 / 3 + p4 / 4 - p5 / 5
  }

  lemma {:induction false} TermsOfFive(u: Fraction, p2: Fraction, p3: Fraction, p4: Fraction, p5: Fraction, value: int)
    requires FiveTerms(u, p2, p3, p4, p5, value)
    ensures Term(u, 2) == p2 / 2 && Term(u, 3) == p3 / 3 && Term(u, 4) == p4 / 4 && Term(u, 5) == p5 / 5 && Term(u, 6) == 0
  {
    assert Power(u, 1) == u;
    NextPower(u, 1, u, p2);
    NextPower(u, 2, p2, p3);
    NextPower(u, 3, p3, p4);
    NextPower(u, 4, p4, p5);
    NextPower(u, 5, p5, FpMul(p5, u));
  }

  lemma {:induction false} LnOfFiveTerms(u: Fraction, p2: Fraction, p3: Fraction, p4: Fraction, p5: Fraction, value: int)
    requires FiveTerms(u, p2, p3, p4, p5, value)
    ensures Ln1p(u) == value
  {
    TermsOfFive(u, p2, p3, p4, p5, value);
    SumsSettle(u, 5, MAX_LN_TERMS);
    AlternatingBracket(u, 2);
    AlternatingBracket(u, 3);
    AlternatingBracket(u, 4);
    AlternatingBracket(u, 5);
  }

  /** Two neighbours: the second and fourth terms stand, the third and fifth step up. */
  lemma {:induction false} Neighbours() returns (u: Fraction, p: seq<Fraction>, w: Fraction, q: seq<Fraction>, value: int)
    ensures w == u + 1 && |p| == |q| == 4
    ensures FiveTerms(u, p[0], p[1], p[2], p[3], value) && FiveTerms(w, q[0], q[1], q[2], q[3], value - 1)
  {
    u, p := 1_004_950_862_180_335, [1_009_926_235_396, 1_014_926_240, 1_019_950, 1_024];
    w, q := 1_004_950_862_180_336, [1_009_926_235_397, 1_014_926_241, 1_019_951, 1_025];
    value := 1_005_455_487_244_070;
  }

  /** Some tolerance is needed: one more unit in the argument can cost one in the value. */
  lemma {:induction false} LnDipsByAUnit() returns (u: Fraction, w: Fraction)
    ensures w == u + 1 && w < HALF && Ln1p(w) + 1 == Ln1p(u)
  {
    var p, q, value;
    u, p, w, q, value := Neighbours();
    LnOfFiveTerms(u, p[0], p[1], p[2], p[3], value);
    LnOfFiveTerms(w, q[0], q[1], q[2], q[3], value - 1);
  }

  // ------------------------------------------------------------- against the exact series

  ghost function ExactPower(y: real, k: nat): real {
    if k == 0 then FP_SCALE as real else ExactPower(y, k - 1) * y
  }

  /** y + y^2/2 - y^3/3 + y^4/4 - ..., the series the lower branch sums. */
  ghost function SignedSeries(y: real, n: nat): real
    requires 0 < n
  {
    if n == 1 then ExactPower(y, 1)
    else if n % 2 == 1 then SignedSeries(y, n - 1) - ExactPower(y, n) / n as real
    else SignedSeries(y, n - 1) + ExactPower(y, n) / n as real
  }

  /** y + y^2/2 + y^3/3 + ..., which is -ln(1 - y). */
  ghost function PlainSeries(y: real, n: nat): real
    requires 0 < n
  {
    if n == 1 then ExactPower(y, 1) else PlainSeries(y, n - 1) + ExactPower(y, n) / n as real
  }

  lemma {:induction false} FlooredProduct(p: Fraction, u: Fraction, exact: real, y: real)
    requires u <= HALF && y == u as real / FP_SCALE as real && 0.0 <= exact - p as real < 2.0
    ensures 0.0 <= exact * y - FpMul(p, u) as real < 2.0
  {
    FpMulByFraction(p, u);
    DivBracket(p * u, FP_SCALE);
    assert p as real * y == (p * u) as real / FP_SCALE as real;
    var d := exact - p as real;
    assert 0.0 <= d * y <= d * 0.5;
    assert exact * y == d * y + p as real * y;
  }

  lemma {:induction false} FlooredQuotient(p: nat, k: nat, exact: real)
    requires 2 <= k && 0.0 <= exact - p as real < 2.0
    ensures 0.0 <= exact / k as real - (p / k) as real < 2.0
  {
    DivBracket(p, k);
    var q := p / k;
    assert (q * k) as real == q as real * k as real;
    QuotientBetween(exact, k as real, q as real);
  }

  lemma {:induction false} QuotientBetween(exact: real, k: real, q: real)
    requires 2.0 <= k && q * k <= exact < q * k + k + 1.0
    ensures 0.0 <= exact / k - q < 2.0
  {
    var d := exact / k - q;
    assert d * k == exact - q * k;
    ExpSeries.RealBetween(d, k, 2.0, d * k);
  }

  lemma {:induction false} FirstPowers(u: Fraction, y: real)
    requires y == u as real / FP_SCALE as real
    ensures Power(u, 1) == u && ExactPower(y, 1) == u as real
  {
    assert ExactPower(y, 0) == FP_SCALE as real;
    assert FP_SCALE as real * y == u as real;
  }

  ghost predicate FlooredRow(u: Fraction, ps: seq<Fraction>, i: nat)
    requires 0 < i < |ps|
  {
    ps[i] == FpMul(ps[i - 1], u)
  }

  ghost predicate ExactRow(y: real, es: seq<real>, i: nat)
    requires 0 < i < |es|
  {
    es[i] == es[i - 1] * y
  }

  ghost predicate FlooredRows(u: Fraction, ps: seq<Fraction>) {
    forall i: nat {:trigger FlooredRow(u, ps, i)} :: 0 < i < |ps| ==> FlooredRow(u, ps, i)
  }

  lemma {:induction false} ExtendRows(u: Fraction, ps: seq<Fraction>, p: Fraction)
    requires FlooredRows(u, ps) && ps != [] && p == FpMul(ps[|ps| - 1], u)
    ensures FlooredRows(u, ps + [p])
  {
    forall i: nat {:trigger FlooredRow(u, ps + [p], i)} | 0 < i < |ps| + 1 ensures FlooredRow(u, ps + [p], i) {
      if i < |ps| {
        assert FlooredRow(u, ps, i);
      }
    }
  }

  lemma {:induction false} PowerIs(u: Fraction, k: nat)
    requires 2 <= k
    ensures Power(u, k) == FpMul(Power(u, k - 1), u)
  {
  }

  /** The first `n` powers as the loops compute them. */
  lemma {:induction false} FlooredPowers(u: Fraction, n: nat) returns (ps: seq<Fraction>)
    requires 0 < n
    ensures |ps| == n && ps[0] == Power(u, 1) && ps[n - 1] == Power(u, n) && FlooredRows(u, ps)
  {
    if n == 1 {
      ps := [Power(u, 1)];
    } else {
      var before := FlooredPowers(u, n - 1);
      PowerIs(u, n);
      ExtendRows(u, before, Power(u, n));
      ps := before + [Power(u, n)];
    }
  }

  /** The first `n` exact powers. */
  lemma {:induction false} ExactPowers(y: real, n: nat) returns (es: seq<real>)
    requires 0 < n
    ensures |es| == n && es[0] == ExactPower(y, 1) && es[n - 1] == ExactPower(y, n)
    ensures forall i: nat {:trigger ExactRow(y, es, i)} :: 0 < i < n ==> ExactRow(y, es, i)
  {
    if n == 1 {
      es := [ExactPower(y, 1)];
    } else {
      var before := ExactPowers(y, n - 1);
      es := before + [ExactPower(y, n)];
      forall i: nat {:trigger ExactRow(y, es, i)} | 0 < i < n ensures ExactRow(y, es, i) {
        if i < n - 1 {
          assert ExactRow(y, before, i);
        }
      }
    }
  }

  lemma {:induction false} RowsError(u: Fraction, ps: seq<Fraction>, y: real, es: seq<real>, i: nat)
    requires u <= HALF && y == u as real / FP_SCALE as real && i < |ps| == |es| && ps[0] == u && es[0] == u as real
    requires FlooredRows(u, ps)
    requires forall j: nat {:trigger ExactRow(y, es, j)} :: 0 < j < |es| ==> ExactRow(y, es, j)
    ensures 0.0 <= es[i] - ps[i] as real < 2.0
  {
    if i == 0 {
    } else {
      RowsError(u, ps, y, es, i - 1);
      FlooredProduct(ps[i - 1], u, es[i - 1], y);
      assert FlooredRow(u, ps, i) && ExactRow(y, es, i);
    }
  }

  lemma {:induction false} TermError(u: Fraction, y: real, k: nat)
    requires u <= HALF && y == u as real / FP_SCALE as real && 2 <= k
    ensures 0.0 <= ExactPower(y, k) / k as real - Term(u, k) as real < 2.0
  {
    FirstPowers(u, y);
    var ps := FlooredPowers(u, k);
    var es := ExactPowers(y, k);
    RowsError(u, ps, y, es, k - 1);
    FlooredQuotient(ps[k - 1], k, es[k - 1]);
  }

  lemma {:induction false} OddIsParity(k: nat)
    ensures Odd(k) <==> k % 2 == 1
  {
    if k == 0 {
    } else {
      OddIsParity(k - 1);
    }
  }

  lemma {:induction false} SignedSumError(u: Fraction, y: real, n: nat)
    requires u <= HALF && y == u as real / FP_SCALE as real && 0 < n
    ensures -2.0 * n as real < AlternatingSum(u, n) as real - SignedSeries(y, n) < 2.0 * n as real
  {
    if n == 1 {
      FirstPowers(u, y);
    } else {
      SignedSumError(u, y, n - 1);
      TermError(u, y, n);
      AlternatingBracket(u, n);
      OddIsParity(n);
    }
  }

  lemma {:induction false} PlainSumError(v: Fraction, y: real, n: nat)
    requires v <= HALF / 2 && y == v as real / FP_SCALE as real && 0 < n
    ensures 0.0 <= PlainSeries(y, n) - PlainSum(v, n) as real < 2.0 * n as real
  {
    if n == 1 {
      FirstPowers(v, y);
    } else {
      PlainSumError(v, y, n - 1);
      TermError(v, y, n);
      PlainBound(v, n);
    }
  }

  /** The value against exact arithmetic: on the lower branch within 400 units of 1e-18 of the exact series with
      its flipped sign, and on the upper branch at most 400 units above ln(2) less the exact series of the
      reduced argument, and never below. */
  lemma {:induction false} LnIsItsSeries(u: Fraction)
    ensures u < 500_000_000_000_000_000 ==>
              var exact := SignedSeries(u as real / 1_000_000_000_000_000_000.0, 200);
              exact - 400.0 < Ln1p(u) as real < exact + 400.0
    ensures 500_000_000_000_000_000 <= u ==>
              var v := (1_000_000_000_000_000_000 - u) / 2;
              var exact := 693_147_180_559_945_309.0 - PlainSeries(v as real / 1_000_000_000_000_000_000.0, 200);
              exact <= Ln1p(u) as real < exact + 400.0
  {
    LnIsSeriesOf(u, MAX_LN_TERMS);
  }

  lemma {:induction false} LnIsSeriesOf(u: Fraction, n: nat)
    requires n == MAX_LN_TERMS
    ensures u < HALF ==> var exact := SignedSeries(u as real / FP_SCALE as real, n);
              exact - 2.0 * n as real < Ln1p(u) as real < exact + 2.0 * n as real
    ensures HALF <= u ==> var exact := LN2_FP as real - PlainSeries(Reduced(u) as real / FP_SCALE as real, n);
              exact <= Ln1p(u) as real < exact + 2.0 * n as real
  {
    if u < HALF {
      SignedSumError(u, u as real / FP_SCALE as real, n);
    } else {
      PlainSumError(Reduced(u), Reduced(u) as real / FP_SCALE as real, n);
      LnRange(u);
    }
  }

  /** The value falls where the branches meet: just below one half it exceeds the value at one half. */
  lemma {:induction false} LnDropsAtHalf()
    ensures Ln1p(HALF) + 50_000_000_000_000_000 < Ln1p(HALF - 1)
  {
    LnRange(HALF - 1);
    LnRange(HALF);
  }
}
