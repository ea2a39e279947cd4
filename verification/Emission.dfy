/** The emission formulas: share, difficulty, energy per token, the device multiplier and
    the reward, each with the fallbacks and casts the program gives it. */
module Emission {
  import opened Arithmetic
  import opened FixedPoint
  import opened ExpSeries
  import opened LnSeries

  const MAX_SUPPLY_ATOMIC: U64 := 1_000_000_000_000_000_000
  const INITIAL_ENERGY_PER_SRC: U64 := 1_000_000
  const SRC_BASIS: U64 := 1_000_000_000
  const MAX_MULTIPLIER: U128 := 1_301_029_995_663_981_195

  function EmissionShare(supply: U64): U128 {
    MulDiv(supply, FP_SCALE, MAX_SUPPLY_ATOMIC, 0)
  }

  /** The argument of the exponential: share times ln 10. */
  function Exponent(supply: U64): U128 {
    FpMul(EmissionShare(supply), LN10_FP)
  }

  function EmissionDifficulty(supply: U64): nat {
    ExpFp(Exponent(supply))
  }

  function EnergyPerSrc(supply: U64): U128 {
    ExpFpFits(Exponent(supply));
    MulDiv(INITIAL_ENERGY_PER_SRC, EmissionDifficulty(supply), FP_SCALE, 0)
  }

  lemma {:induction false} ExpFpFits(x: U128)
    ensures ExpFp(x) <= U128_MAX / INITIAL_ENERGY_PER_SRC
  {
    ExpSumBound(x, MAX_EXP_TERMS);
  }

  function Log10Of(u: Fraction): U128 {
    MulDiv(Ln1p(u), FP_SCALE, LN10_FP, 0)
  }

  /** The device's share of the network energy, clamped to one. */
  function DeviceShare(device: U64, network: U128): Fraction
    requires network != 0
  {
    if device >= network then FP_SCALE
    else
      ShareFits(device, network);
      MulDiv(device, FP_SCALE, network, FP_SCALE)
  }

  lemma {:induction false} ShareFits(device: U64, network: U128)
    requires device < network
    ensures MulDiv(device, FP_SCALE, network, FP_SCALE) <= FP_SCALE
    ensures device * FP_SCALE <= U128_MAX
  {
    MulMono(device, FP_SCALE, U64_MAX, FP_SCALE);
    MulMono(device, FP_SCALE, network, FP_SCALE);
    DivAtMost(device * FP_SCALE, network, FP_SCALE);
  }

  function DeviceMultiplier(device: U64, network: U128): U128 {
    if network == 0 then FP_SCALE
    else AddOrMax(FP_SCALE, Log10Of(DeviceShare(device, network)))
  }

  function EffectiveEnergyPerSrc(supply: U64, device: U64, network: U128): U128 {
    MulDiv(EnergyPerSrc(supply), DeviceMultiplier(device, network), FP_SCALE, 0)
  }

  /** The exact quotient before the truncating cast. */
  function ExactReward(energy: nat, energyPerSrc: U128): nat {
    if energyPerSrc == 0 then 0 else energy * SRC_BASIS / energyPerSrc
  }

  /** `reward_for_energy`: the quotient, cut to 64 bits by the cast. */
  function RewardForEnergy(energy: U64, energyPerSrc: U128): U64 {
    ExactReward(energy, energyPerSrc) % (U64_MAX + 1)
  }

  function CalculateReward(energy: U64, supply: U64): U64 {
    RewardForEnergy(energy, EnergyPerSrc(supply))
  }

  function CalculateRewardDynamic(energy: U64, supply: U64, device: U64, network: U128): U64 {
    RewardForEnergy(energy, EffectiveEnergyPerSrc(supply, device, network))
  }

  // ---------------------------------------------------------------- difficulty

  lemma {:induction false} ExponentBound(supply: U64)
    requires supply <= MAX_SUPPLY_ATOMIC
    ensures EmissionShare(supply) == supply && supply * FP_SCALE <= U128_MAX
    ensures supply * LN10_FP <= U128_MAX && Exponent(supply) <= LN10_FP
  {
    DivUnique(supply * FP_SCALE, MAX_SUPPLY_ATOMIC, supply);
    FpMulMonotone(supply, LN10_FP, FP_SCALE, LN10_FP);
  }

  lemma {:induction false} ExpAtLeastOne(x: U128, n: nat)
    ensures FP_SCALE <= ExpSum(x, n)
  {
    if n == 0 {
    } else {
      ExpAtLeastOne(x, n - 1);
    }
  }

  /** Wh per token never falls as supply grows to the cap: exact, through every floor. */
  lemma {:induction false} EnergyPerSrcMonotone(s1: U64, s2: U64)
    requires s1 <= s2 <= MAX_SUPPLY_ATOMIC
    ensures EnergyPerSrc(s1) <= EnergyPerSrc(s2)
  {
    ExponentBound(s1);
    ExponentBound(s2);
    FpMulMonotone(s1, LN10_FP, s2, LN10_FP);
    ExpMonotone(Exponent(s1), Exponent(s2));
    EnergyMonotoneInDifficulty(Exponent(s1), Exponent(s2));
    ExpFpFits(Exponent(s1));
    ExpFpFits(Exponent(s2));
  }

  lemma {:induction false} EnergyMonotoneInDifficulty(x: U128, y: U128)
    requires ExpFp(x) <= ExpFp(y)
    ensures INITIAL_ENERGY_PER_SRC * ExpFp(y) <= U128_MAX
    ensures INITIAL_ENERGY_PER_SRC * ExpFp(x) / FP_SCALE <= INITIAL_ENERGY_PER_SRC * ExpFp(y) / FP_SCALE
  {
    ExpFpFits(y);
    DivMono(INITIAL_ENERGY_PER_SRC * ExpFp(x), INITIAL_ENERGY_PER_SRC * ExpFp(y), FP_SCALE);
  }

  /** The range of the curve: one MWh at genesis, one Wh short of ten at the cap. */
  lemma {:induction false} EnergyPerSrcRange(supply: U64)
    requires supply <= MAX_SUPPLY_ATOMIC
    ensures INITIAL_ENERGY_PER_SRC <= EnergyPerSrc(supply) <= 9_999_999
  {
    ExponentBound(supply);
    ExpAtLeastOne(Exponent(supply), MAX_EXP_TERMS);
    ExpMonotone(Exponent(supply), LN10_FP);
    ExpAtLn10();
    var d := ExpFp(Exponent(supply));
    assert FP_SCALE <= d <= 9_999_999_999_999_999_986;
    DivAtLeast(INITIAL_ENERGY_PER_SRC * d, FP_SCALE, INITIAL_ENERGY_PER_SRC);
    DivMono(INITIAL_ENERGY_PER_SRC * d, INITIAL_ENERGY_PER_SRC * 9_999_999_999_999_999_986, FP_SCALE);
  }

  lemma {:induction false} EnergyAtHalf(supply: U64)
    requires supply == 500_000_000_000_000_000
    ensures EnergyPerSrc(supply) == 3_162_277
  {
    ExponentBound(supply);
    assert Exponent(supply) == 1_151_292_546_497_022_842;
    ExpAtHalf(Exponent(supply));
  }

  lemma {:induction false} EnergyPerSrcEndpoints()
    ensures EnergyPerSrc(0) == INITIAL_ENERGY_PER_SRC
    ensures EnergyPerSrc(500_000_000_000_000_000) == 3_162_277
    ensures EnergyPerSrc(MAX_SUPPLY_ATOMIC) == 9_999_999
  {
    EnergyAtHalf(500_000_000_000_000_000);
    ExponentBound(0);
    ExponentBound(MAX_SUPPLY_ATOMIC);
    ExpTermOne(0);
    ExpSumSettles(0, 0, MAX_EXP_TERMS);
    ExpAtLn10();
    assert Exponent(MAX_SUPPLY_ATOMIC) == LN10_FP;
  }

  lemma {:induction false} CurveBracket(d: nat, e: nat, exact: real)
    requires e * 1_000_000_000_000_000_000 <= 1_000_000 * d < e * 1_000_000_000_000_000_000 + 1_000_000_000_000_000_000
    requires d as real <= exact < d as real + 82.0
    ensures e as real * 1_000_000_000_000_000_000.0 <= 1_000_000.0 * exact
    ensures 1_000_000.0 * exact < (e + 1) as real * 1_000_000_000_000_000_000.0 + 82_000_000.0
  {
    assert (e * 1_000_000_000_000_000_000) as real == e as real * 1_000_000_000_000_000_000.0;
    assert (1_000_000 * d) as real == 1_000_000.0 * d as real;
  }

  /** The whole curve, not its ends alone: within the cap the price is one megawatt-hour times 10 to the share of
      the cap already minted, that is times e to the share of ln 10, floored to a watt-hour; the exponential is
      the exact series, and the floors before the last cost less than 82 millionths of a millionth. */
  lemma {:induction false} CurveIsExponential(supply: U64, n: nat)
    requires supply <= 1_000_000_000_000_000_000 && 27 <= n
    ensures var x := supply * 2_302_585_092_994_045_684 / 1_000_000_000_000_000_000;
            var exact := TaylorSum(x as real / 1_000_000_000_000_000_000.0, n);
            && EnergyPerSrc(supply) as real * 1_000_000_000_000_000_000.0 <= 1_000_000.0 * exact
            && 1_000_000.0 * exact < (EnergyPerSrc(supply) + 1) as real * 1_000_000_000_000_000_000.0 + 82_000_000.0
  {
    ExponentBound(supply);
    var x := Exponent(supply);
    ExpIsExponential(x, n);
    ExpFpFits(x);
    DivBracket(INITIAL_ENERGY_PER_SRC * ExpFp(x), FP_SCALE);
    CurveBracket(ExpFp(x), EnergyPerSrc(supply), TaylorSum(AsReal(x), n));
  }

  // ---------------------------------------------------------------- multiplier

  lemma {:induction false} Log10Bound(u: Fraction)
    ensures Ln1p(u) * FP_SCALE <= U128_MAX
    ensures Log10Of(u) <= MAX_MULTIPLIER - FP_SCALE
  {
    LnRange(u);
    DivMono(Ln1p(u) * FP_SCALE, LN2_FP * FP_SCALE, LN10_FP);
  }

  /** The multiplier is one plus the decimal logarithm of one plus the device's share of the network, each quotient
      floored: a share of one for a device that is the whole network, and no addition where there is no network. */
  lemma {:induction false} MultiplierBracket(device: U64, network: U128) returns (u: Fraction)
    ensures network == 0 ==> DeviceMultiplier(device, network) == 1_000_000_000_000_000_000
    ensures 0 < network <= device ==> u == 1_000_000_000_000_000_000
    ensures device < network ==>
              u * network <= device * 1_000_000_000_000_000_000 < u * network + network
    ensures network != 0 ==>
              var added := DeviceMultiplier(device, network) - 1_000_000_000_000_000_000;
              added * 2_302_585_092_994_045_684 <= Ln1p(u) * 1_000_000_000_000_000_000
                < added * 2_302_585_092_994_045_684 + 2_302_585_092_994_045_684
  {
    u := FP_SCALE;
    if network != 0 {
      u := DeviceShare(device, network);
      Log10Bound(u);
      DivBracket(Ln1p(u) * FP_SCALE, LN10_FP);
      if device < network {
        ShareFits(device, network);
        DivBracket(device * FP_SCALE, network);
      }
    }
  }

  /** For every device and network energy the multiplier lies between 1 and 1 + log10(2). */
  lemma {:induction false} MultiplierRange(device: U64, network: U128)
    ensures FP_SCALE <= DeviceMultiplier(device, network) <= MAX_MULTIPLIER
  {
    if network != 0 {
      Log10Bound(DeviceShare(device, network));
    }
  }

  /** The upper end is reached exactly by a device whose share, floored, is at most one unit short of the
      whole network. */
  lemma {:induction false} MultiplierAtTopIff(device: U64, network: U128)
    ensures DeviceMultiplier(device, network) == MAX_MULTIPLIER
            <==> network != 0 && FP_SCALE - 1 <= DeviceShare(device, network)
  {
    if network != 0 {
      var u := DeviceShare(device, network);
      Log10Bound(u);
      LnAtTopIff(u);
      LnRange(u);
      if Ln1p(u) != LN2_FP {
        DivMono(Ln1p(u) * FP_SCALE, (LN2_FP - 1) * FP_SCALE, LN10_FP);
      }
    }
  }

  /** From one half of the network on, more device energy never lowers the multiplier. */
  lemma {:induction false} MultiplierMonotoneAboveHalf(d1: U64, d2: U64, network: U128)
    requires network != 0 && d1 <= d2 && HALF <= DeviceShare(d1, network)
    ensures DeviceMultiplier(d1, network) <= DeviceMultiplier(d2, network)
  {
    var u1, u2 := DeviceShare(d1, network), DeviceShare(d2, network);
    ShareMonotone(d1, d2, network);
    LnMonotoneAboveHalf(u1, u2);
    Log10Bound(u1);
    Log10Bound(u2);
    DivMono(Ln1p(u1) * FP_SCALE, Ln1p(u2) * FP_SCALE, LN10_FP);
  }

  /** Below one half more device energy lowers the multiplier by at most 43 units of 1e-18, and not at all
      once the share is 291 units larger. */
  lemma {:induction false} MultiplierNearlyMonotone(d1: U64, d2: U64, network: U128)
    requires network != 0 && d1 <= d2 && DeviceShare(d2, network) < HALF
    ensures DeviceMultiplier(d1, network) <= DeviceMultiplier(d2, network) + 43
    ensures DeviceShare(d1, network) + 291 <= DeviceShare(d2, network) ==> DeviceMultiplier(d1, network) <= DeviceMultiplier(d2, network)
  {
    var u1, u2 := DeviceShare(d1, network), DeviceShare(d2, network);
    ShareMonotone(d1, d2, network);
    LnNearlyMonotone(u1, u2);
    Log10Bound(u1);
    Log10Bound(u2);
    Log10Gap(Ln1p(u1), Ln1p(u2));
    if Ln1p(u1) <= Ln1p(u2) {
      DivMono(Ln1p(u1) * FP_SCALE, Ln1p(u2) * FP_SCALE, LN10_FP);
    }
  }

  lemma {:induction false} Log10Gap(a: nat, b: nat)
    requires a <= b + 97
    ensures a * FP_SCALE / LN10_FP <= b * FP_SCALE / LN10_FP + 43
  {
    DivBracket(b * FP_SCALE, LN10_FP);
    QuotientWithin(a, b, b * FP_SCALE / LN10_FP);
  }

  lemma {:induction false} BelowNext(p: nat, a: nat, b: nat, q: nat)
    requires a <= b + 97 && b * FP_SCALE < q * LN10_FP + LN10_FP && p * LN10_FP <= a * FP_SCALE
    ensures p <= q + 43
  {
  }

  lemma {:induction false} QuotientWithin(a: nat, b: nat, q: nat)
    requires a <= b + 97 && b * FP_SCALE < q * LN10_FP + LN10_FP
    ensures a * FP_SCALE / LN10_FP <= q + 43
  {
    DivBracket(a * FP_SCALE, LN10_FP);
    BelowNext(a * FP_SCALE / LN10_FP, a, b, q);
  }

  lemma {:induction false} ShareMonotone(d1: U64, d2: U64, network: U128)
    requires network != 0 && d1 <= d2
    ensures DeviceShare(d1, network) <= DeviceShare(d2, network)
  {
    if d2 < network {
      ShareFits(d1, network);
      ShareFits(d2, network);
      DivMono(d1 * FP_SCALE, d2 * FP_SCALE, network);
    }
  }

  /** And a share of at most 0.345 never has a larger multiplier than a share of one half or more. */
  lemma {:induction false} MultiplierAcrossHalf(d1: U64, d2: U64, network: U128)
    requires network != 0
    requires DeviceShare(d1, network) <= 345_000_000_000_000_000 && HALF <= DeviceShare(d2, network)
    ensures DeviceMultiplier(d1, network) <= DeviceMultiplier(d2, network)
  {
    var u1, u2 := DeviceShare(d1, network), DeviceShare(d2, network);
    LnAcrossHalf(u1, u2);
    Log10Bound(u1);
    Log10Bound(u2);
    DivMono(Ln1p(u1) * FP_SCALE, Ln1p(u2) * FP_SCALE, LN10_FP);
  }

  /** Below one half it can: the device with one Wh more gets the smaller multiplier. */
  lemma {:induction false} MultiplierDropsAtHalf()
    ensures DeviceMultiplier(500_000_000_000_000_000, 1_000_000_000_000_000_000)
         < DeviceMultiplier(499_999_999_999_999_999, 1_000_000_000_000_000_000)
  {
    LnDropsAtHalf();
    Log10Bound(HALF);
    Log10Bound(HALF - 1);
    assert DeviceShare(500_000_000_000_000_000, 1_000_000_000_000_000_000) == HALF;
    assert DeviceShare(499_999_999_999_999_999, 1_000_000_000_000_000_000) == HALF - 1;
    DivAtLeast(Ln1p(HALF - 1) * FP_SCALE, LN10_FP, Log10Of(HALF) + 1) by {
      DivBracket(Ln1p(HALF) * FP_SCALE, LN10_FP);
    }
  }

  /** On supplies up to the cap no checked operation of the formulas falls back. */
  lemma {:induction false} NoFallback(supply: U64, device: U64, network: U128)
    requires supply <= MAX_SUPPLY_ATOMIC
    ensures supply * FP_SCALE <= U128_MAX
    ensures EmissionShare(supply) * LN10_FP <= U128_MAX
    ensures forall k: nat :: ExpTerm(Exponent(supply), k) * Exponent(supply) <= U128_MAX
    ensures INITIAL_ENERGY_PER_SRC * EmissionDifficulty(supply) <= U128_MAX
    ensures network != 0 && device < network ==> device * FP_SCALE <= U128_MAX
    ensures network != 0 ==> Ln1p(DeviceShare(device, network)) * FP_SCALE <= U128_MAX
    ensures EnergyPerSrc(supply) * DeviceMultiplier(device, network) <= U128_MAX
    ensures INITIAL_ENERGY_PER_SRC <= EffectiveEnergyPerSrc(supply, device, network)
  {
    ExponentBound(supply);
    forall k: nat ensures ExpTerm(Exponent(supply), k) * Exponent(supply) <= U128_MAX {
      ExpTermBound(Exponent(supply), k);
    }
    ExpFpFits(Exponent(supply));
    if network != 0 {
      if device < network {
        ShareFits(device, network);
      }
      Log10Bound(DeviceShare(device, network));
    }
    EffectiveBound(supply, device, network);
  }

  lemma {:induction false} EffectiveBound(supply: U64, device: U64, network: U128)
    requires supply <= MAX_SUPPLY_ATOMIC
    ensures EnergyPerSrc(supply) * DeviceMultiplier(device, network) <= U128_MAX
    ensures INITIAL_ENERGY_PER_SRC <= EffectiveEnergyPerSrc(supply, device, network)
  {
    EnergyPerSrcRange(supply);
    MultiplierRange(device, network);
    var e, m := EnergyPerSrc(supply), DeviceMultiplier(device, network);
    MulMono(e, m, 9_999_999, MAX_MULTIPLIER);
    MulMono(INITIAL_ENERGY_PER_SRC, FP_SCALE, e, m);
    DivAtLeast(e * m, FP_SCALE, INITIAL_ENERGY_PER_SRC);
  }

  /** The effective price is the supply's price times the device's multiplier, floored. */
  lemma {:induction false} EffectiveBracket(supply: U64, device: U64, network: U128)
    requires supply <= 1_000_000_000_000_000_000
    ensures var price := EffectiveEnergyPerSrc(supply, device, network);
            price * 1_000_000_000_000_000_000 <= EnergyPerSrc(supply) * DeviceMultiplier(device, network)
              < (price + 1) * 1_000_000_000_000_000_000
  {
    EffectiveBound(supply, device, network);
    DivBracket(EnergyPerSrc(supply) * DeviceMultiplier(device, network), FP_SCALE);
  }

  // ---------------------------------------------------------------- rewards

  /** `r` atomics are what the energy buys at the price, a token being 10^9 atomics. */
  ghost predicate Buys(r: nat, energy: nat, price: nat) {
    r * price <= energy * 1_000_000_000 < (r + 1) * price
  }

  /** `price` is the price of the supply times the multiplier of the device, floored to a watt-hour. */
  ghost predicate PriceOf(price: nat, supply: U64, device: U64, network: U128) {
    price * 1_000_000_000_000_000_000 <= EnergyPerSrc(supply) * DeviceMultiplier(device, network)
      < (price + 1) * 1_000_000_000_000_000_000
  }

  lemma {:induction false} ExactRewardBuys(energy: nat, price: U128)
    requires 0 < price
    ensures Buys(ExactReward(energy, price), energy, price)
  {
    DivBracket(energy * SRC_BASIS, price);
    MulDistributes(ExactReward(energy, price), 1, price);
  }

  /** What a mint pays for a report: what its energy buys at the device's own price, cut to 64 bits, and uncut
      wherever it fits them. */
  lemma {:induction false} DynamicRewardBuys(energy: U64, supply: U64, device: U64, network: U128) returns (price: nat, exact: nat)
    requires supply <= 1_000_000_000_000_000_000
    ensures 1_000_000 <= price && PriceOf(price, supply, device, network) && Buys(exact, energy, price)
    ensures CalculateRewardDynamic(energy, supply, device, network) == exact % 0x1_0000_0000_0000_0000
    ensures exact <= 0xFFFF_FFFF_FFFF_FFFF ==> CalculateRewardDynamic(energy, supply, device, network) == exact
  {
    price := EffectiveEnergyPerSrc(supply, device, network);
    exact := ExactReward(energy, price);
    EffectiveBound(supply, device, network);
    EffectiveBracket(supply, device, network);
    ExactRewardBuys(energy, price);
    Truncates(exact);
  }

  /** And the reward of a pool's energy: what it buys at the price of the supply alone. */
  lemma {:induction false} RewardBuys(energy: U64, supply: U64) returns (exact: nat)
    requires supply <= 1_000_000_000_000_000_000
    ensures Buys(exact, energy, EnergyPerSrc(supply))
    ensures CalculateReward(energy, supply) == exact % 0x1_0000_0000_0000_0000
    ensures exact <= 0xFFFF_FFFF_FFFF_FFFF ==> CalculateReward(energy, supply) == exact
  {
    EnergyPerSrcRange(supply);
    exact := ExactReward(energy, EnergyPerSrc(supply));
    ExactRewardBuys(energy, EnergyPerSrc(supply));
    Truncates(exact);
  }

  /** At genesis a device that is the whole network pays exactly 1_301_029 Wh for a token, and one with no share
      of it 1_000_000. */
  lemma {:induction false} GenesisPrices(device: U64, network: U128)
    ensures 0 < network <= device ==> EffectiveEnergyPerSrc(0, device, network) == 1_301_029
    ensures network == 0 ==> EffectiveEnergyPerSrc(0, device, network) == 1_000_000
  {
    EnergyPerSrcEndpoints();
    if 0 < network <= device {
      MultiplierAtTopIff(device, network);
      DivUnique(INITIAL_ENERGY_PER_SRC * MAX_MULTIPLIER, FP_SCALE, 1_301_029);
    }
  }

  /** A mint never pays more than 1000 atomics per Wh. */
  lemma {:induction false} RewardPerWh(energy: U64, supply: U64, device: U64, network: U128)
    requires supply <= MAX_SUPPLY_ATOMIC
    ensures CalculateRewardDynamic(energy, supply, device, network) <= 1000 * energy
  {
    EffectiveBound(supply, device, network);
    var eps := EffectiveEnergyPerSrc(supply, device, network);
    DivAntitone(energy * SRC_BASIS, INITIAL_ENERGY_PER_SRC, eps);
    assert energy * SRC_BASIS / INITIAL_ENERGY_PER_SRC == energy * 1000;
    Truncates(ExactReward(energy, eps));
  }

  lemma {:induction false} AtInitialPrice(energy: U64, price: U128)
    requires price == INITIAL_ENERGY_PER_SRC && 1000 * energy <= U64_MAX
    ensures RewardForEnergy(energy, price) == 1000 * energy
  {
    assert energy * SRC_BASIS / price == 1000 * energy;
    Truncates(1000 * energy);
  }

  /** At genesis a megawatt-hour earns exactly one token: a thousand atomics for each watt-hour. */
  lemma {:induction false} GenesisPeg(energy: U64)
    requires 1000 * energy <= U64_MAX
    ensures CalculateReward(energy, 0) == 1000 * energy
  {
    EnergyPerSrcEndpoints();
    AtInitialPrice(energy, EnergyPerSrc(0));
  }

  /** The same energy never earns more at a larger supply. */
  lemma {:induction false} RewardFallsWithSupply(energy: U64, s1: U64, s2: U64)
    requires s1 <= s2 <= MAX_SUPPLY_ATOMIC
    requires ExactReward(energy, EnergyPerSrc(s1)) <= U64_MAX
    ensures CalculateReward(energy, s2) <= CalculateReward(energy, s1)
  {
    EnergyPerSrcRange(s1);
    EnergyPerSrcMonotone(s1, s2);
    DivAntitone(energy * SRC_BASIS, EnergyPerSrc(s1), EnergyPerSrc(s2));
    Truncates(ExactReward(energy, EnergyPerSrc(s1)));
    Truncates(ExactReward(energy, EnergyPerSrc(s2)));
  }

  lemma {:induction false} Truncates(n: nat)
    ensures n % (U64_MAX + 1) <= n
    ensures n <= U64_MAX ==> n % (U64_MAX + 1) == n
  {
  }

  function Total(energies: seq<U64>): nat {
    if energies == [] then 0 else energies[0] + Total(energies[1..])
  }

  /** What a list of proofs is paid under a price curve when every reward raises the supply
      before the next one; the list ends where the supply would leave 64 bits. */
  function SplitReward(price: U64 -> U128, energies: seq<U64>, supply: U64): nat {
    if energies == [] then 0
    else
      var r := RewardForEnergy(energies[0], price(supply));
      if supply + r <= U64_MAX then r + SplitReward(price, energies[1..], supply + r) else r
  }

  ghost predicate RisingPrice(price: U64 -> U128) {
    forall s1: U64, s2: U64 :: s1 <= s2 <= MAX_SUPPLY_ATOMIC ==> 0 < price(s1) <= price(s2)
  }

  /** Under any rising price, many small proofs earn at most what one proof of the whole
      earns at the starting supply, while the supply stays within the cap. */
  lemma {:induction false} SplittingUnderRisingPrice(price: U64 -> U128, energies: seq<U64>, supply: U64)
    requires RisingPrice(price)
    requires supply + SplitReward(price, energies, supply) <= MAX_SUPPLY_ATOMIC
    ensures SplitReward(price, energies, supply) <= ExactReward(Total(energies), price(supply))
    decreases |energies|
  {
    if energies == [] {
    } else {
      var e, rest := energies[0], energies[1..];
      var r := RewardForEnergy(e, price(supply));
      SplittingUnderRisingPrice(price, rest, supply + r);
      SplitStep(e, Total(rest), price(supply), price(supply + r), r, SplitReward(price, rest, supply + r));
    }
  }

  /** One proof at today's price and the rest at a higher one earn at most the whole at today's. */
  lemma {:induction false} SplitStep(e: U64, rest: nat, eps: U128, later: U128, first: nat, others: nat)
    requires 0 < eps <= later
    requires first == RewardForEnergy(e, eps) && others <= ExactReward(rest, later)
    ensures first + others <= ExactReward(e + rest, eps)
  {
    Truncates(ExactReward(e, eps));
    DivAntitone(rest * SRC_BASIS, eps, later);
    DivSuperadditive(e * SRC_BASIS, rest * SRC_BASIS, eps);
    MulDistributes(e, rest, SRC_BASIS);
  }

  function SupplyPrice(): U64 -> U128 {
    (s: U64) => EnergyPerSrc(s)
  }

  lemma {:induction false} SupplyPriceRises()
    ensures RisingPrice(SupplyPrice())
  {
    forall s1: U64, s2: U64 | s1 <= s2 <= MAX_SUPPLY_ATOMIC
      ensures 0 < SupplyPrice()(s1) <= SupplyPrice()(s2)
    {
      EnergyPerSrcRange(s1);
      EnergyPerSrcMonotone(s1, s2);
    }
  }

  /** Splitting energy into many proofs never pays under the program's own difficulty, against
      the program's own one-shot reward when that fits its types. */
  lemma {:induction false} SplittingNeverPays(energies: seq<U64>, supply: U64)
    requires supply + SplitReward(SupplyPrice(), energies, supply) <= MAX_SUPPLY_ATOMIC
    ensures SplitReward(SupplyPrice(), energies, supply) <= ExactReward(Total(energies), EnergyPerSrc(supply))
    ensures Total(energies) <= U64_MAX && ExactReward(Total(energies), EnergyPerSrc(supply)) <= U64_MAX ==>
              SplitReward(SupplyPrice(), energies, supply) <= CalculateReward(Total(energies), supply)
  {
    SupplyPriceRises();
    SplittingUnderRisingPrice(SupplyPrice(), energies, supply);
    Truncates(ExactReward(Total(energies), EnergyPerSrc(supply)));
  }
}
