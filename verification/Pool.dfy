/** Energy pools: joining, and the two-pass split of a pool reward in which the last member takes
    the remainder. */
module Pool {
  import opened Arithmetic
  import opened FixedPoint
  import opened Protocol
  import Emission

  const MAX_PRODUCERS: nat := 100
  const ERS_MAX_SCORE: nat := 1_000
  const DEFAULT_POOL_THRESHOLD: U128 := 1_000_000

  type U32 = n: nat | n <= 0xFFFF_FFFF

  // ------------------------------------------------------------- one member

  /** What a member brings to a distribution: its contribution and its reputation. */
  datatype Member = Member(energy: U128, score: U32)

  /** `ers_pool_bonus_fp`: up to one fifth, linear in the score. */
  function Bonus(score: U32): (b: U128)
    ensures b <= FP_SCALE / 5
  {
    Min(score, ERS_MAX_SCORE) * (FP_SCALE / 5) / ERS_MAX_SCORE
  }

  /** `pool_share_fp`. */
  function ShareFp(contribution: U128, total: U128): U128 {
    if total == 0 then 0 else MulDiv(contribution, FP_SCALE, total, 0)
  }

  function Weighted(m: Member, total: U128): U128 {
    AddOrMax(ShareFp(m.energy, total), FpMul(Bonus(m.score), ShareFp(m.energy, total)))
  }

  function ShareOfTotal(weight: U128, sum: U128): U128
    requires 0 < sum
  {
    MulDiv(weight, FP_SCALE, sum, 0)
  }

  /** `pool_reward_for_share`. */
  function RewardForShare(total: U64, share: U128): (r: U64)
    ensures r <= total
  {
    Min(MulDiv(total, share, FP_SCALE, 0), total)
  }

  // ------------------------------------------------------------- both passes

  /** The bonus is 2/10000 of the contribution for each point of the score, up to a thousand points. */
  lemma {:induction false} BonusIs(score: U32)
    ensures Bonus(score) == 200_000_000_000_000 * (if score <= 1000 then score else 1000)
  {
  }

  lemma {:induction false} BonusPart(raw: U128, bonus: U128)
    requires bonus <= FP_SCALE / 5
    ensures FpMul(bonus, raw) <= raw / 5 + 1
  {
    if bonus * raw <= U128_MAX {
      MulMono(bonus, raw, FP_SCALE / 5, raw);
      DivAtMost(bonus * raw, FP_SCALE, raw / 5 + 1);
    }
  }

  lemma {:induction false} RaisedBy(raw: U128, product: nat, added: nat)
    requires added * FP_SCALE <= product < added * FP_SCALE + FP_SCALE
    requires raw + added <= U128_MAX
    ensures AddOrMax(raw, added) * FP_SCALE <= raw * FP_SCALE + product < AddOrMax(raw, added) * FP_SCALE + FP_SCALE
  {
  }

  lemma {:induction false} BonusProduct(raw: U128, bonus: U128)
    requires bonus == 0 || FP_SCALE / 5000 <= bonus
    requires bonus * raw <= U128_MAX
    ensures bonus == 0 || raw <= U128_MAX / 2
  {
    if bonus != 0 {
      MulMono(FP_SCALE / 5000, raw, bonus, raw);
    }
  }

  lemma {:induction false} WeightParts(raw: U128, bonus: U128)
    requires bonus <= FP_SCALE / 5 && (bonus == 0 || FP_SCALE / 5000 <= bonus) && bonus * raw <= U128_MAX
    ensures var w := AddOrMax(raw, FpMul(bonus, raw));
            w * FP_SCALE <= raw * (FP_SCALE + bonus) < w * FP_SCALE + FP_SCALE
  {
    BonusProduct(raw, bonus);
    BonusPart(raw, bonus);
    DivBracket(bonus * raw, FP_SCALE);
    if bonus == 0 {
      assert FpMul(bonus, raw) == 0;
    }
    RaisedBy(raw, bonus * raw, FpMul(bonus, raw));
    MulDistributes(FP_SCALE, bonus, raw);
  }

  /** A member's weight: its share of the pool's energy, floored, raised by its bonus, floored again; where a
      product overflows there is no share, or no bonus. */
  lemma {:induction false} WeightBracket(m: Member, total: U128) returns (share: nat, bonus: nat)
    ensures bonus == 200_000_000_000_000 * (if m.score <= 1000 then m.score else 1000)
    ensures 0 < total && m.energy * 1_000_000_000_000_000_000 <= U128_MAX ==>
              share * total <= m.energy * 1_000_000_000_000_000_000 < share * total + total
    ensures total == 0 || U128_MAX < m.energy * 1_000_000_000_000_000_000 ==> share == 0
    ensures U128_MAX < bonus * share ==> Weighted(m, total) == share
    ensures bonus * share <= U128_MAX ==>
            Weighted(m, total) * 1_000_000_000_000_000_000 <= share * (1_000_000_000_000_000_000 + bonus)
              < Weighted(m, total) * 1_000_000_000_000_000_000 + 1_000_000_000_000_000_000
  {
    share, bonus := ShareFp(m.energy, total), Bonus(m.score);
    BonusIs(m.score);
    if 0 < total && m.energy * FP_SCALE <= U128_MAX {
      DivBracket(m.energy * FP_SCALE, total);
    }
    if bonus * share <= U128_MAX {
      WeightParts(share, bonus);
    }
  }

  function Weights(members: seq<Member>, total: U128): (ws: seq<U128>)
    ensures |ws| == |members| && forall i :: 0 <= i < |ws| ==> ws[i] == Weighted(members[i], total)
  {
    seq(|members|, i requires 0 <= i < |members| => Weighted(members[i], total))
  }

  function SaturatingSum(ws: seq<U128>): U128 {
    if ws == [] then 0 else AddOrMax(SaturatingSum(ws[..|ws| - 1]), ws[|ws| - 1])
  }

  function Sum(ns: seq<nat>): nat {
    if ns == [] then 0 else Sum(ns[..|ns| - 1]) + ns[|ns| - 1]
  }

  /** What the member at `i` would get without the remainder rule. */
  function Quota(total: U64, ws: seq<U128>): nat -> U64
    requires 0 < SaturatingSum(ws)
  {
    (i: nat) => if i < |ws| then RewardForShare(total, ShareOfTotal(ws[i], SaturatingSum(ws))) else 0
  }

  function Firsts(q: nat -> U64, n: nat): (rs: seq<U64>)
    ensures |rs| == n && forall i :: 0 <= i < n ==> rs[i] == q(i)
  {
    seq(n, i requires 0 <= i < n => q(i))
  }

  function Quotas(total: U64, ws: seq<U128>, n: nat): (rs: seq<U64>)
    requires 0 < SaturatingSum(ws)
    ensures |rs| == n
  {
    Firsts(Quota(total, ws), n)
  }

  /** The rewards of the second pass. */
  function Payouts(total: U64, ws: seq<U128>): seq<U64>
    requires 0 < SaturatingSum(ws)
  {
    var others := Quotas(total, ws, |ws| - 1);
    others + [SatSub(total, Sum(others))]
  }

  // ------------------------------------------------------------- the shares fit

  lemma {:induction false} SaturatingSumIs(ws: seq<U128>)
    ensures SaturatingSum(ws) == Min(U128_MAX, Sum(ws))
  {
    if ws == [] {
    } else {
      SaturatingSumIs(ws[..|ws| - 1]);
    }
  }

  /** One share, against the saturated sum or the exact one. */
  lemma {:induction false} ShareBound(weight: U128, sum: U128)
    requires 0 < sum
    ensures ShareOfTotal(weight, sum) * sum <= weight * FP_SCALE
    ensures sum == U128_MAX ==> ShareOfTotal(weight, sum) <= 1
  {
    if weight * FP_SCALE <= U128_MAX {
      DivBracket(weight * FP_SCALE, sum);
      if sum == U128_MAX {
        DivAtMost(weight * FP_SCALE, sum, 1);
      }
    }
  }

  function Shares(ws: seq<U128>, sum: U128): (ss: seq<U128>)
    requires 0 < sum
    ensures |ss| == |ws| && forall i :: 0 <= i < |ws| ==> ss[i] == ShareOfTotal(ws[i], sum)
  {
    seq(|ws|, i requires 0 <= i < |ws| => ShareOfTotal(ws[i], sum))
  }

  lemma {:induction false} SharesWeigh(ws: seq<U128>, sum: U128)
    requires 0 < sum
    ensures Sum(Shares(ws, sum)) * sum <= Sum(ws) * FP_SCALE
    ensures sum == U128_MAX ==> Sum(Shares(ws, sum)) <= |ws|
  {
    if ws == [] {
    } else {
      var n := |ws| - 1;
      SharesWeigh(ws[..n], sum);
      assert Shares(ws, sum)[..n] == Shares(ws[..n], sum);
      ShareBound(ws[n], sum);
      SumFits(Sum(Shares(ws[..n], sum)), ShareOfTotal(ws[n], sum), sum, Sum(ws[..n]) * FP_SCALE, ws[n] * FP_SCALE);
    }
  }

  lemma {:induction false} CancelRight(a: nat, b: nat, d: nat)
    requires 0 < d && a * d <= b * d
    ensures a <= b
  {
    if b < a {
      MulMono(b + 1, d, a, d);
    }
  }

  /** Whatever overflows, the shares never exceed the whole. */
  lemma {:induction false} SharesAtMostWhole(ws: seq<U128>)
    requires |ws| <= FP_SCALE && 0 < SaturatingSum(ws)
    ensures Sum(Shares(ws, SaturatingSum(ws))) <= FP_SCALE
  {
    var sum := SaturatingSum(ws);
    SaturatingSumIs(ws);
    SharesWeigh(ws, sum);
    if sum != U128_MAX {
      CancelRight(Sum(Shares(ws, sum)), FP_SCALE, sum);
    }
  }

  lemma {:induction false} RewardBound(total: U64, share: U128)
    ensures Within(RewardForShare(total, share), total, share)
  {
    if total * share <= U128_MAX {
      DivBracket(total * share, FP_SCALE);
    }
  }

  /** A payment within a share of the reward, in fixed point. */
  predicate Within(paid: nat, total: nat, share: nat) {
    paid * FP_SCALE <= total * share
  }

  lemma {:induction false} RewardsStep(total: nat, before: nat, reward: nat, shares: nat, share: nat)
    requires Within(before, total, shares) && Within(reward, total, share)
    ensures Within(before + reward, total, shares + share)
  {
    DistributesLeft(total, shares, share);
  }

  lemma {:induction false} AllWithin(paid: seq<nat>, total: nat, shares: seq<nat>)
    requires |paid| == |shares|
    requires forall i :: 0 <= i < |paid| ==> Within(paid[i], total, shares[i])
    ensures Within(Sum(paid), total, Sum(shares))
  {
    if paid == [] {
    } else {
      var n := |paid| - 1;
      AllWithin(paid[..n], total, shares[..n]);
      RewardsStep(total, Sum(paid[..n]), paid[n], Sum(shares[..n]), shares[n]);
    }
  }

  lemma {:induction false} RewardsBound(total: U64, ws: seq<U128>, n: nat)
    requires 0 < SaturatingSum(ws) && n <= |ws|
    ensures Within(Sum(Quotas(total, ws, n)), total, Sum(Shares(ws, SaturatingSum(ws))[..n]))
  {
    var shares := Shares(ws, SaturatingSum(ws));
    forall i | 0 <= i < n ensures Within(Quotas(total, ws, n)[i], total, shares[..n][i]) {
      RewardBound(total, shares[i]);
    }
    AllWithin(Quotas(total, ws, n), total, shares[..n]);
  }

  lemma {:induction false} DistributesLeft(a: nat, b: nat, c: nat)
    ensures a * (b + c) == a * b + a * c
  {
  }

  lemma {:induction false} SumPrefix(ns: seq<nat>, n: nat)
    requires n <= |ns|
    ensures Sum(ns[..n]) <= Sum(ns)
  {
    if n < |ns| {
      assert ns[..|ns| - 1][..n] == ns[..n];
      SumPrefix(ns[..|ns| - 1], n);
    } else {
      assert ns[..n] == ns;
    }
  }

  /** No prefix of the quotas exceeds the reward: neither the running total nor the remainder clamps. */
  lemma {:induction false} QuotasFit(total: U64, ws: seq<U128>, n: nat)
    requires |ws| <= FP_SCALE && 0 < SaturatingSum(ws) && n <= |ws|
    ensures Sum(Quotas(total, ws, n)) <= total
  {
    var shares := Shares(ws, SaturatingSum(ws));
    RewardsBound(total, ws, n);
    SumPrefix(shares, n);
    SharesAtMostWhole(ws);
    MulMono(total, Sum(shares[..n]), total, FP_SCALE);
  }

  lemma {:induction false} SumPlus(ns: seq<nat>, n: nat)
    ensures Sum(ns + [n]) == Sum(ns) + n
  {
    assert (ns + [n])[..|ns|] == ns;
  }

  lemma {:induction false} FirstsSnoc(q: nat -> U64, n: nat)
    ensures Firsts(q, n + 1) == Firsts(q, n) + [q(n)]
    ensures Sum(Firsts(q, n + 1)) == Sum(Firsts(q, n)) + q(n)
  {
    assert Firsts(q, n + 1) == Firsts(q, n) + [q(n)];
    SumPlus(Firsts(q, n), q(n));
  }

  lemma {:induction false} NextQuota(total: U64, ws: seq<U128>, n: nat)
    requires |ws| <= FP_SCALE && 0 < SaturatingSum(ws) && n < |ws|
    ensures Quotas(total, ws, n + 1) == Quotas(total, ws, n) + [Quota(total, ws)(n)]
    ensures Sum(Quotas(total, ws, n)) + Quota(total, ws)(n) <= total
  {
    QuotasFit(total, ws, n + 1);
    FirstsSnoc(Quota(total, ws), n);
  }

  /** The payouts are exactly the reward, whatever the contributions, scores and overflows. */
  lemma {:induction false} PayoutsSumToReward(total: U64, ws: seq<U128>)
    requires ws != [] && |ws| <= FP_SCALE && 0 < SaturatingSum(ws)
    ensures Sum(Payouts(total, ws)) == total
  {
    QuotasFit(total, ws, |ws| - 1);
    var others := Quotas(total, ws, |ws| - 1);
    assert Payouts(total, ws)[..|ws| - 1] == others;
  }

  // ------------------------------------------------------------- and are fair

  /** The two floors cost less than two atomics. */
  lemma {:induction false} TwoFloors(t: nat, w: nat, sum: nat, share: nat, reward: nat)
    requires t <= FP_SCALE && 0 < sum
    requires share * sum <= w * FP_SCALE < share * sum + sum
    requires reward * FP_SCALE <= t * share < reward * FP_SCALE + FP_SCALE
    ensures reward * sum <= t * w < (reward + 2) * sum
  {
    LowerFloors(t, w, sum, share, reward);
    UpperFloors(t, w, sum, share, reward);
  }

  lemma {:induction false} LowerFloors(t: nat, w: nat, sum: nat, share: nat, reward: nat)
    requires share * sum <= w * FP_SCALE
    requires reward * FP_SCALE <= t * share
    ensures reward * sum <= t * w
  {
    assert reward * FP_SCALE * sum <= t * share * sum by { MulMono(reward * FP_SCALE, sum, t * share, sum); }
    assert t * (share * sum) <= t * (w * FP_SCALE) by { MulMono(t, share * sum, t, w * FP_SCALE); }
    Associates(t, share, sum);
    Associates(t, w, FP_SCALE);
    Swaps(reward, FP_SCALE, sum);
    CancelRight(reward * sum, t * w, FP_SCALE);
  }

  lemma {:induction false} UpperFloors(t: nat, w: nat, sum: nat, share: nat, reward: nat)
    requires t <= FP_SCALE && 0 < sum
    requires w * FP_SCALE < share * sum + sum
    requires t * share < reward * FP_SCALE + FP_SCALE
    ensures t * w < (reward + 2) * sum
  {
    var scale := FP_SCALE;
    assert t * (w * scale) <= t * (share * sum + sum) by { MulMono(t, w * scale, t, share * sum + sum); }
    DistributesLeft(t, share * sum, sum);
    Associates(t, share, sum);
    assert t * share * sum <= (reward + 1) * scale * sum by {
      MulDistributes(reward, 1, scale);
      MulMono(t * share, sum, (reward + 1) * scale, sum);
    }
    assert t * sum <= scale * sum by { MulMono(t, sum, scale, sum); }
    Associates(t, w, scale);
    TwoMore(reward, scale, sum);
    StrictWhenPositive(t, w, scale, sum, share, reward);
  }

  lemma {:induction false} Associates(a: nat, b: nat, c: nat)
    ensures a * (b * c) == a * b * c
  {
  }

  lemma {:induction false} Swaps(a: nat, b: nat, c: nat)
    ensures a * b * c == a * c * b
  {
  }

  lemma {:induction false} TwoMore(reward: nat, scale: nat, sum: nat)
    ensures (reward + 1) * scale * sum + scale * sum == (reward + 2) * sum * scale
  {
    Swaps(reward + 1, scale, sum);
    Swaps(reward + 2, sum, scale);
    assert (reward + 2) * sum == (reward + 1) * sum + sum by { MulDistributes(reward + 1, 1, sum); }
    MulDistributes((reward + 1) * sum, sum, scale);
    assert sum * scale == scale * sum;
  }

  lemma {:induction false} StrictWhenPositive(t: nat, w: nat, scale: nat, sum: nat, share: nat, reward: nat)
    requires 0 < sum && 0 < scale
    requires t * share < reward * scale + scale
    requires t * w * scale <= t * share * sum + t * sum
    requires t <= scale
    ensures t * w < (reward + 2) * sum
  {
    // t * share <= (reward + 1) * scale - 1, so one whole `sum` is to spare.
    MulDistributes(reward, 1, scale);
    var slack := (reward + 1) * scale - 1;
    assert t * share * sum <= slack * sum by { MulMono(t * share, sum, slack, sum); }
    MulDistributes((reward + 1) * scale, -1, sum);
    MulMono(t, sum, scale, sum);
    TwoMore(reward, scale, sum);
    if (reward + 2) * sum <= t * w {
      MulMono((reward + 2) * sum, scale, t * w, scale);
    }
  }

  lemma {:induction false} ExactShare(w: U128, sum: U128)
    requires 0 < sum && w <= sum && w * FP_SCALE <= U128_MAX
    ensures ShareOfTotal(w, sum) * sum <= w * FP_SCALE < ShareOfTotal(w, sum) * sum + sum
    ensures ShareOfTotal(w, sum) <= FP_SCALE
  {
    DivBracket(w * FP_SCALE, sum);
    MulMono(w, FP_SCALE, sum, FP_SCALE);
    DivAtMost(w * FP_SCALE, sum, FP_SCALE);
  }

  lemma {:induction false} ExactReward(total: U64, share: U128)
    requires total <= FP_SCALE && share <= FP_SCALE
    ensures RewardForShare(total, share) * FP_SCALE <= total * share < RewardForShare(total, share) * FP_SCALE + FP_SCALE
  {
    MulMono(total, share, FP_SCALE, FP_SCALE);
    MulMono(total, share, total, FP_SCALE);
    DivAtMost(total * share, FP_SCALE, total);
    DivBracket(total * share, FP_SCALE);
  }

  lemma {:induction false} FairReward(total: U64, w: U128, sum: U128)
    requires total <= FP_SCALE && 0 < sum && w <= sum && w * FP_SCALE <= U128_MAX
    ensures var reward := RewardForShare(total, ShareOfTotal(w, sum));
            reward * sum <= total * w < (reward + 2) * sum
  {
    ExactShare(w, sum);
    ExactReward(total, ShareOfTotal(w, sum));
    TwoFloors(total, w, sum, ShareOfTotal(w, sum), RewardForShare(total, ShareOfTotal(w, sum)));
  }

  /** At most the exact share total * weight / sum, and less than two atomics below it. */
  predicate Fair(paid: nat, total: nat, weight: nat, sum: nat) {
    paid * sum <= total * weight < (paid + 2) * sum
  }

  /** A weight whose scaled product overflows, or any weight against a saturated sum, earns nothing. */
  lemma {:induction false} OverflowPaysNothing(total: U64, w: U128, sum: U128)
    requires 0 < sum && (U128_MAX < w * FP_SCALE || sum == U128_MAX)
    ensures RewardForShare(total, ShareOfTotal(w, sum)) == 0
  {
    if w * FP_SCALE <= U128_MAX {
      NoShareOfMax(w);
    }
  }

  /** The largest u128 is odd, so no scaled weight reaches it. */
  lemma {:induction false} NoShareOfMax(w: U128)
    requires w * FP_SCALE <= U128_MAX
    ensures w * FP_SCALE / U128_MAX == 0
  {
    assert w * FP_SCALE == 2 * (w * (FP_SCALE / 2));
    DivUnique(w * FP_SCALE, U128_MAX, 0);
  }

  lemma {:induction false} ScaledWithin(total: nat, w: nat, limit: nat)
    requires total <= FP_SCALE && w * FP_SCALE <= limit
    ensures total * w <= limit
  {
    MulMono(total, w, FP_SCALE, w);
  }

  /** One member's reward against the exact sum of the weights, of which `sum` is what a u128 keeps. */
  lemma {:induction false} FairIff(total: U64, w: U128, sum: U128, exact: nat)
    requires total <= FP_SCALE && 0 < sum == Min(U128_MAX, exact) && w <= exact
    ensures Fair(RewardForShare(total, ShareOfTotal(w, sum)), total, w, exact)
       <==> (w * FP_SCALE <= U128_MAX || total * w < 2 * exact)
  {
    if U128_MAX < w * FP_SCALE || sum == U128_MAX {
      OverflowPaysNothing(total, w, sum);
      if w * FP_SCALE <= U128_MAX {
        ScaledWithin(total, w, U128_MAX);
      }
    } else {
      FairReward(total, w, sum);
    }
  }

  /** Each member but the last gets its exact weighted share, less under two atomics, exactly when its
      weight can be scaled in a u128, or its share is below two atomics anyway. */
  lemma {:induction false} PayoutFairIff(total: U64, ws: seq<U128>, i: nat)
    requires 0 < SaturatingSum(ws) && i < |ws| - 1 && total <= FP_SCALE
    ensures Fair(Payouts(total, ws)[i], total, ws[i], Sum(ws)) <==> (ws[i] * FP_SCALE <= U128_MAX || total * ws[i] < 2 * Sum(ws))
  {
    SaturatingSumIs(ws);
    WeightAtMostSum(ws, i);
    FairIff(total, ws[i], SaturatingSum(ws), Sum(ws));
  }

  /** At most the exact share of the reward. */
  predicate NoMoreThanShare(paid: nat, total: nat, weight: nat, sum: nat) {
    paid * sum <= total * weight
  }

  lemma {:induction false} QuotaNoMoreThanShare(total: U64, w: U128, sum: U128, exact: nat)
    requires 0 < sum == Min(U128_MAX, exact)
    ensures NoMoreThanShare(RewardForShare(total, ShareOfTotal(w, sum)), total, w, exact)
  {
    if U128_MAX < w * FP_SCALE || sum == U128_MAX {
      OverflowPaysNothing(total, w, sum);
    } else {
      var share := ShareOfTotal(w, sum);
      ShareBound(w, sum);
      RewardBound(total, share);
      LowerFloors(total, w, sum, share, RewardForShare(total, share));
    }
  }

  lemma {:induction false} SharesStep(paid: nat, reward: nat, total: nat, weights: nat, weight: nat, sum: nat)
    requires NoMoreThanShare(paid, total, weights, sum) && NoMoreThanShare(reward, total, weight, sum)
    ensures NoMoreThanShare(paid + reward, total, weights + weight, sum)
  {
    MulDistributes(paid, reward, sum);
    DistributesLeft(total, weights, weight);
  }

  lemma {:induction false} AllNoMoreThanShare(paid: seq<nat>, total: nat, weights: seq<nat>, sum: nat)
    requires |paid| == |weights|
    requires forall i :: 0 <= i < |paid| ==> NoMoreThanShare(paid[i], total, weights[i], sum)
    ensures NoMoreThanShare(Sum(paid), total, Sum(weights), sum)
  {
    if paid == [] {
      assert Sum(paid) == 0;
    } else {
      var n := |paid| - 1;
      AllNoMoreThanShare(paid[..n], total, weights[..n], sum);
      SharesStep(Sum(paid[..n]), paid[n], total, Sum(weights[..n]), weights[n], sum);
    }
  }

  /** What the others leave of a reward is at least the last one's share. */
  lemma {:induction false} RestCovers(total: nat, paid: nat, others: nat, last: nat)
    requires paid <= total && NoMoreThanShare(paid, total, others, others + last)
    ensures total * last <= (total - paid) * (others + last)
  {
    MulDistributes(total - paid, paid, others + last);
    DistributesLeft(total, others, last);
  }

  /** The last member, who takes the remainder, never gets less than its exact share, whatever overflows. */
  lemma {:induction false} LastNeverShort(total: U64, ws: seq<U128>)
    requires ws != [] && |ws| <= FP_SCALE && 0 < SaturatingSum(ws)
    ensures var last := |ws| - 1; total * ws[last] <= Payouts(total, ws)[last] * Sum(ws)
  {
    var n := |ws| - 1;
    var others := Quotas(total, ws, n);
    SaturatingSumIs(ws);
    QuotasFit(total, ws, n);
    forall i | 0 <= i < n ensures NoMoreThanShare(others[i], total, ws[..n][i], Sum(ws)) {
      QuotaNoMoreThanShare(total, ws[i], SaturatingSum(ws), Sum(ws));
    }
    AllNoMoreThanShare(others, total, ws[..n], Sum(ws));
    RestCovers(total, Sum(others), Sum(ws[..n]), ws[n]);
  }

  lemma {:induction false} WeightAtMostSum(ws: seq<nat>, i: nat)
    requires i < |ws|
    ensures ws[i] <= Sum(ws)
  {
    if i < |ws| - 1 {
      WeightAtMostSum(ws[..|ws| - 1], i);
    }
  }

  /** A contribution of at most 283 times the pool's total can always be scaled. */
  lemma {:induction false} ModestWeight(m: Member, total: U128)
    requires m.energy <= 283 * total
    ensures Weighted(m, total) * FP_SCALE <= U128_MAX
  {
    ModestShare(m.energy, total);
    ModestSum(ShareFp(m.energy, total), Bonus(m.score));
  }

  lemma {:induction false} ModestShare(energy: U128, total: U128)
    requires energy <= 283 * total
    ensures ShareFp(energy, total) <= 283 * FP_SCALE
  {
    if 0 < total && energy * FP_SCALE <= U128_MAX {
      MulMono(energy, FP_SCALE, 283 * total, FP_SCALE);
      DivAtMost(energy * FP_SCALE, total, 283 * FP_SCALE);
    }
  }

  lemma {:induction false} ModestSum(raw: U128, bonus: U128)
    requires raw <= 283 * FP_SCALE && bonus <= FP_SCALE / 5
    ensures AddOrMax(raw, FpMul(bonus, raw)) * FP_SCALE <= U128_MAX
  {
    BonusPart(raw, bonus);
  }

  // ------------------------------------------------------------- the pool's accounts

  /** The pool and its members' contribution accounts. */
  datatype State = State(
    key: Key, authority: Key, totalEnergy: U128, threshold: U128, producers: seq<Key>, contributions: map<Key, U128>)

  /** The vault's supply fields. */
  datatype Vault = Vault(supply: U64, maxSupply: U64)

  /** The four accounts passed for one member. */
  datatype Group = Group(
    producer: Key, owner: Key, sharePool: Key, shareProducer: Key, ata: Key, ataOwner: Key, ataMint: Key,
    reputationOwner: Key, score: U32)

  datatype Credit = Credit(ata: Key, amount: U64)

  function Create(key: Key, authority: Key, threshold: U64): State {
    State(key, authority, 0, if threshold == 0 then DEFAULT_POOL_THRESHOLD else threshold, [], map[])
  }

  function Join(s: State, producer: Key): Result<State> {
    var member := producer in s.producers;
    :- Need(!member, AlreadyInPool);
    :- Need(|s.producers| < MAX_PRODUCERS, InvalidParameter);
    Ok(s.(producers := s.producers + [producer],
          contributions := if producer in s.contributions then s.contributions else s.contributions[producer := 0]))
  }

  /** The pool part of `mint_energy`. */
  function Contribute(s: State, producer: Key, energy: U64): Result<State> {
    var known := producer in s.contributions;
    :- Need(known, AccountMissing);
    :- Need(producer in s.producers, NotInPool);
    :- Need(s.totalEnergy + energy <= U128_MAX, ArithmeticOverflow);
    :- Need(s.contributions[producer] + energy <= U128_MAX, ArithmeticOverflow);
    Ok(s.(totalEnergy := s.totalEnergy + energy,
          contributions := s.contributions[producer := s.contributions[producer] + energy]))
  }

  function CheckGroup(s: State, g: Group, mint: Key): Outcome {
    if g.producer !in s.contributions then Fail(AccountMissing)
    else if g.producer !in s.producers then Fail(NotInPool)
    else if g.sharePool != s.key then Fail(InvalidParameter)
    else if g.shareProducer != g.producer then Fail(InvalidParameter)
    else if g.reputationOwner != g.owner then Fail(InvalidParameter)
    else if g.ataOwner != g.owner then Fail(UnauthorizedTokenAccountOwner)
    else if g.ataMint != mint then Fail(DestinationMintMismatch)
    else Pass
  }

  function CheckGroups(s: State, groups: seq<Group>, mint: Key): (r: Outcome)
    ensures r == Pass ==> forall i :: 0 <= i < |groups| ==> groups[i].producer in s.contributions && groups[i].producer in s.producers
  {
    if groups == [] then Pass
    else
      var first := CheckGroup(s, groups[0], mint);
      if first.Fail? then first else CheckGroups(s, groups[1..], mint)
  }

  function MemberOf(s: State, g: Group): Member {
    Member(if g.producer in s.contributions then s.contributions[g.producer] else 0, g.score)
  }

  function MembersOf(s: State, groups: seq<Group>): (ms: seq<Member>)
    ensures |ms| == |groups| && forall i :: 0 <= i < |ms| ==> ms[i] == MemberOf(s, groups[i])
  {
    seq(|groups|, i requires 0 <= i < |groups| => MemberOf(s, groups[i]))
  }

  function Credits(groups: seq<Group>, rewards: seq<U64>): (cs: seq<Credit>)
    requires |groups| == |rewards|
    ensures |cs| == |groups| && forall i :: 0 <= i < |cs| ==> cs[i] == Credit(groups[i].ata, rewards[i])
  {
    seq(|groups|, i requires 0 <= i < |groups| => Credit(groups[i].ata, rewards[i]))
  }

  datatype Distribution = Distribution(state: State, vault: Vault, credits: seq<Credit>)

  function WeightsOf(s: State, groups: seq<Group>): seq<U128> {
    Weights(MembersOf(s, groups), s.totalEnergy)
  }

  /** Every check of `distribute_pool`, and the reward it will split. */
  function Plan(s: State, vault: Vault, signer: Key, groups: seq<Group>, mint: Key): Result<U64> {
    var weights := WeightsOf(s, groups);
    :- Need(signer == s.authority, Unauthorized);
    :- Need(s.threshold <= s.totalEnergy, PoolThresholdNotReached);
    :- Need(s.producers != [], InvalidParameter);
    :- Need(|groups| == |s.producers|, InvalidParameter);
    :- CheckGroups(s, groups, mint);
    :- Need(0 < SaturatingSum(weights), InvalidParameter);
    var total := Emission.CalculateReward(Min(s.totalEnergy, U64_MAX), vault.supply);
    :- Need(0 < total, ZeroAmountMint);
    :- Need(vault.supply + total <= U64_MAX, ArithmeticOverflow);
    :- Need(vault.supply + total <= vault.maxSupply, SupplyLimitExceeded);
    Ok(total)
  }

  lemma {:induction false} PlanIsSound(s: State, vault: Vault, signer: Key, groups: seq<Group>, mint: Key)
    requires Plan(s, vault, signer, groups, mint).Ok?
    ensures vault.supply + Plan(s, vault, signer, groups, mint).value <= vault.maxSupply
    ensures groups != [] && |groups| == |s.producers| && 0 < SaturatingSum(WeightsOf(s, groups))
    ensures Plan(s, vault, signer, groups, mint).value == Emission.CalculateReward(Min(s.totalEnergy, U64_MAX), vault.supply)
    ensures forall i :: 0 <= i < |groups| ==> groups[i].producer in s.contributions
  {
  }

  function Distribute(s: State, vault: Vault, signer: Key, groups: seq<Group>, mint: Key): Result<Distribution> {
    var total :- Plan(s, vault, signer, groups, mint);
    PlanIsSound(s, vault, signer, groups, mint);
    Ok(Distribution(s.(totalEnergy := 0), vault.(supply := vault.supply + total), Credits(groups, Payouts(total, WeightsOf(s, groups)))))
  }

  // ------------------------------------------------------------- runs of a pool

  datatype Step =
    | JoinStep(producer: Key)
    | ContributeStep(producer: Key, energy: U64)
    | DistributeStep(vault: Vault, signer: Key, groups: seq<Group>, mint: Key)

  function Next(s: State, step: Step): State {
    match step
    case JoinStep(p) => Settle(Join(s, p), s)
    case ContributeStep(p, energy) => Settle(Contribute(s, p, energy), s)
    case DistributeStep(vault, signer, groups, mint) =>
      var r := Distribute(s, vault, signer, groups, mint);
      if r.Ok? then r.value.state else s
  }

  function Run(start: State, steps: seq<Step>): State {
    if steps == [] then start else Next(Run(start, steps[..|steps| - 1]), steps[|steps| - 1])
  }

  ghost predicate Inv(s: State) {
    && |s.producers| <= MAX_PRODUCERS && Distinct(s.producers)
    && (forall p :: p in s.producers ==> p in s.contributions)
  }

  lemma {:induction false} RunKeeps(key: Key, authority: Key, threshold: U64, steps: seq<Step>)
    ensures Inv(Run(Create(key, authority, threshold), steps))
  {
    if steps == [] {
    } else {
      RunKeeps(key, authority, threshold, steps[..|steps| - 1]);
    }
  }

  /** A pool opens empty, with a threshold of one megawatt-hour unless it names another. */
  lemma {:induction false} CreateIs(key: Key, authority: Key, threshold: U64)
    ensures Create(key, authority, threshold) == State(key, authority, 0, if threshold == 0 then 1_000_000 else threshold, [], map[])
  {
  }

  /** A member joins exactly once, while there are fewer than a hundred, and keeps what it contributed before. */
  lemma {:induction false} JoinIff(s: State, producer: Key)
    ensures Join(s, producer).Ok? <==> producer !in s.producers && |s.producers| < 100
    ensures Join(s, producer).Ok? ==>
      var t := Join(s, producer).value;
      && t.producers == s.producers + [producer] && t.totalEnergy == s.totalEnergy && producer in t.contributions
      && t.contributions[producer] == (if producer in s.contributions then s.contributions[producer] else 0)
      && forall p :: p in s.contributions ==> p in t.contributions && t.contributions[p] == s.contributions[p]
  {
  }

  /** The energy of one member's mints over a run. */
  function Contributed(start: State, steps: seq<Step>, p: Key): nat {
    if steps == [] then 0
    else
      var before, step := steps[..|steps| - 1], steps[|steps| - 1];
      Contributed(start, before, p)
        + if step.ContributeStep? && step.producer == p && Contribute(Run(start, before), p, step.energy).Ok? then step.energy else 0
  }

  /** The energy of all mints for the pool since its last distribution. */
  function Pooled(start: State, steps: seq<Step>): nat {
    if steps == [] then 0
    else
      var before, step := steps[..|steps| - 1], steps[|steps| - 1];
      var s, so := Run(start, before), Pooled(start, before);
      match step
      case JoinStep(_) => so
      case ContributeStep(p, energy) => if Contribute(s, p, energy).Ok? then so + energy else so
      case DistributeStep(vault, signer, groups, mint) => if Distribute(s, vault, signer, groups, mint).Ok? then 0 else so
  }

  /** The pool's total is what was contributed since the last distribution; a member's account is what it
      contributed ever. */
  lemma {:induction false} TotalsAreContributions(key: Key, authority: Key, threshold: U64, steps: seq<Step>, p: Key)
    ensures var start := Create(key, authority, threshold);
            var s := Run(start, steps);
            && s.totalEnergy == Pooled(start, steps)
            && (if p in s.contributions then s.contributions[p] else 0) == Contributed(start, steps, p)
  {
    if steps == [] {
    } else {
      TotalsAreContributions(key, authority, threshold, steps[..|steps| - 1], p);
    }
  }

  /** A contribution is taken exactly from a member, while the sums fit. */
  lemma {:induction false} ContributeIff(s: State, producer: Key, energy: U64)
    requires Inv(s)
    ensures Contribute(s, producer, energy).Ok? <==>
      producer in s.producers && s.totalEnergy + energy <= U128_MAX && s.contributions[producer] + energy <= U128_MAX
  {
  }

  /** The four accounts of a group belong together, and to a member of the pool. */
  predicate Belongs(s: State, g: Group, mint: Key) {
    && g.producer in s.producers && g.sharePool == s.key && g.shareProducer == g.producer
    && g.reputationOwner == g.owner && g.ataOwner == g.owner && g.ataMint == mint
  }

  lemma {:induction false} GroupsPassIff(s: State, groups: seq<Group>, mint: Key)
    requires Inv(s)
    ensures CheckGroups(s, groups, mint) == Pass <==> forall i :: 0 <= i < |groups| ==> Belongs(s, groups[i], mint)
  {
    if groups == [] {
    } else {
      GroupsPassIff(s, groups[1..], mint);
      assert groups == [groups[0]] + groups[1..];
    }
  }

  /** A pool is distributed exactly by its authority, from its threshold on, with as many groups as members, each
      of whose accounts belong together, to members with some weight, for a reward that is not zero and keeps the
      supply within the cap. */
  lemma {:induction false} DistributeIff(s: State, vault: Vault, signer: Key, groups: seq<Group>, mint: Key)
    requires Inv(s)
    ensures var reward := Emission.CalculateReward(Min(s.totalEnergy, U64_MAX), vault.supply);
            Distribute(s, vault, signer, groups, mint).Ok? <==>
              && signer == s.authority && s.threshold <= s.totalEnergy && s.producers != [] && |groups| == |s.producers|
              && (forall i :: 0 <= i < |groups| ==> Belongs(s, groups[i], mint))
              && 0 < Sum(WeightsOf(s, groups)) && 0 < reward && vault.supply + reward <= vault.maxSupply
  {
    GroupsPassIff(s, groups, mint);
    SaturatingSumIs(WeightsOf(s, groups));
  }

  function Paid(credits: seq<Credit>): (ns: seq<nat>)
    ensures |ns| == |credits| && forall i :: 0 <= i < |ns| ==> ns[i] == credits[i].amount
  {
    seq(|credits|, i requires 0 <= i < |credits| => credits[i].amount)
  }

  /** In every reachable state a distribution pays out exactly what it adds to the supply, which is the
      reward for the pool's energy, and stays within the cap; nothing in the second pass clamps. */
  lemma {:induction false} DistributionConserves(s: State, vault: Vault, signer: Key, groups: seq<Group>, mint: Key)
    requires Inv(s) && Distribute(s, vault, signer, groups, mint).Ok?
    ensures var d := Distribute(s, vault, signer, groups, mint).value;
            && Sum(Paid(d.credits)) == d.vault.supply - vault.supply
            && d.vault.supply == vault.supply + Emission.CalculateReward(Min(s.totalEnergy, U64_MAX), vault.supply) <= vault.maxSupply
  {
    PlanIsSound(s, vault, signer, groups, mint);
    var ws, total := WeightsOf(s, groups), Plan(s, vault, signer, groups, mint).value;
    PayoutsSumToReward(total, ws);
    assert Paid(Credits(groups, Payouts(total, ws))) == Payouts(total, ws);
  }

  /** In a distribution a member but the last gets its weighted share of the reward, less under two
      atomics and never more, exactly when its weight can be scaled in a u128 or the share is below two
      atomics. */
  lemma {:induction false} DistributionFairIff(s: State, vault: Vault, signer: Key, groups: seq<Group>, mint: Key, i: nat)
    requires Distribute(s, vault, signer, groups, mint).Ok? && i < |groups| - 1 && vault.maxSupply <= FP_SCALE
    ensures var credits, total := Distribute(s, vault, signer, groups, mint).value.credits, Plan(s, vault, signer, groups, mint).value;
            var ws := WeightsOf(s, groups);
            credits[i].ata == groups[i].ata &&
            (Fair(credits[i].amount, total, ws[i], Sum(ws)) <==> (ws[i] * FP_SCALE <= U128_MAX || total * ws[i] < 2 * Sum(ws)))
  {
    PlanIsSound(s, vault, signer, groups, mint);
    PayoutFairIff(Plan(s, vault, signer, groups, mint).value, WeightsOf(s, groups), i);
  }

  // ------------------------------------------------------------- groups and members

  function Producers(groups: seq<Group>): (ks: seq<Key>)
    ensures |ks| == |groups| && forall i :: 0 <= i < |ks| ==> ks[i] == groups[i].producer
  {
    seq(|groups|, i requires 0 <= i < |groups| => groups[i].producer)
  }

  /** Every member has a group. */
  ghost predicate CoversMembers(s: State, groups: seq<Group>) {
    forall p :: p in s.producers ==> p in Producers(groups)
  }

  function Elements(keys: seq<Key>): set<Key> {
    set k | k in keys
  }

  lemma {:induction false} DistinctSnoc(keys: seq<Key>, k: Key)
    ensures Distinct(keys + [k]) <==> Distinct(keys) && k !in keys
    ensures Elements(keys + [k]) == Elements(keys) + {k}
  {
    var all := keys + [k];
    assert forall i :: 0 <= i < |keys| ==> all[i] == keys[i];
    assert all[|keys|] == k;
    if k in keys {
      var j :| 0 <= j < |keys| && keys[j] == k;
      assert all[j] == all[|keys|];
    }
  }

  /** As many elements as places exactly where none is repeated. */
  lemma {:induction false} ElementsCount(keys: seq<Key>)
    ensures |Elements(keys)| <= |keys|
    ensures |Elements(keys)| == |keys| <==> Distinct(keys)
  {
    if keys == [] {
    } else {
      var before, k := keys[..|keys| - 1], keys[|keys| - 1];
      ElementsCount(before);
      assert keys == before + [k];
      DistinctSnoc(before, k);
      if k in before {
        assert Elements(keys) == Elements(before);
      }
    }
  }

  lemma {:induction false} SubsetBySize(part: set<Key>, whole: set<Key>)
    requires part <= whole
    ensures |part| <= |whole|
    ensures part == whole <==> |part| == |whole|
  {
    assert whole == part + (whole - part);
  }

  /** As many names as there are members name all of them exactly where none is repeated. */
  lemma {:induction false} AllNamedIff(members: seq<Key>, named: seq<Key>)
    requires |named| == |members| && Distinct(members) && forall k :: k in named ==> k in members
    ensures (forall p :: p in members ==> p in named) <==> Distinct(named)
  {
    ElementsCount(named);
    ElementsCount(members);
    SubsetBySize(Elements(named), Elements(members));
    assert Elements(members) <= Elements(named) <==> forall p :: p in members ==> p in named by {
      assert forall p :: p in Elements(members) <==> p in members;
    }
  }

  lemma {:induction false} GroupsAreMembers(s: State, vault: Vault, signer: Key, groups: seq<Group>, mint: Key)
    requires Plan(s, vault, signer, groups, mint).Ok?
    ensures forall i :: 0 <= i < |groups| ==> groups[i].producer in s.producers
  {
  }

  /** Nothing checks that the groups are of different members. In every reachable state a distribution
      serves all members exactly where no two groups name the same one. */
  lemma {:induction false} AllServedIff(s: State, vault: Vault, signer: Key, groups: seq<Group>, mint: Key)
    requires Inv(s) && Distribute(s, vault, signer, groups, mint).Ok?
    ensures CoversMembers(s, groups) <==> Distinct(Producers(groups))
  {
    PlanIsSound(s, vault, signer, groups, mint);
    GroupsAreMembers(s, vault, signer, groups, mint);
    AllNamedIff(s.producers, Producers(groups));
  }

  /** The group at `i` is the only one of member `p`. */
  ghost predicate OnlyGroup(groups: seq<Group>, p: Key, i: nat) {
    i < |groups| && forall j :: 0 <= j < |groups| ==> (groups[j].producer == p <==> j == i)
  }

  /** What a fair distribution credits for the group at `i`: the share less under two atomics exactly where
      its weight can be scaled or the share is below two atomics anyway, and for the last group at least
      the share. */
  ghost predicate FairWhereScaled(paid: nat, total: nat, ws: seq<U128>, i: nat)
    requires i < |ws|
  {
    if i == |ws| - 1 then total * ws[i] <= paid * Sum(ws)
    else Fair(paid, total, ws[i], Sum(ws)) <==> (ws[i] * FP_SCALE <= U128_MAX || total * ws[i] < 2 * Sum(ws))
  }

  lemma {:induction false} LastCredited(s: State, vault: Vault, signer: Key, groups: seq<Group>, mint: Key)
    requires Inv(s) && Distribute(s, vault, signer, groups, mint).Ok?
    ensures var total, last := Plan(s, vault, signer, groups, mint).value, |groups| - 1;
            0 <= last &&
            total * WeightsOf(s, groups)[last]
              <= Distribute(s, vault, signer, groups, mint).value.credits[last].amount * Sum(WeightsOf(s, groups))
  {
    PlanIsSound(s, vault, signer, groups, mint);
    LastNeverShort(Plan(s, vault, signer, groups, mint).value, WeightsOf(s, groups));
  }

  /** Where no two groups name the same member, every member of the pool has exactly one credit, and it is
      as fair as its weight allows. */
  lemma {:induction false} MembersServedFairly(s: State, vault: Vault, signer: Key, groups: seq<Group>, mint: Key, p: Key)
    requires Inv(s) && Distribute(s, vault, signer, groups, mint).Ok? && vault.maxSupply <= FP_SCALE
    requires Distinct(Producers(groups)) && p in s.producers
    ensures var credits, total := Distribute(s, vault, signer, groups, mint).value.credits, Plan(s, vault, signer, groups, mint).value;
            |credits| == |groups| &&
            exists i: nat :: OnlyGroup(groups, p, i) && credits[i].ata == groups[i].ata && FairWhereScaled(credits[i].amount, total, WeightsOf(s, groups), i)
  {
    AllServedIff(s, vault, signer, groups, mint);
    var i: nat :| i < |groups| && Producers(groups)[i] == p;
    forall j | 0 <= j < |groups| ensures groups[j].producer == p <==> j == i {
      assert Producers(groups)[j] == groups[j].producer;
    }
    assert OnlyGroup(groups, p, i);
    if i == |groups| - 1 {
      LastCredited(s, vault, signer, groups, mint);
    } else {
      DistributionFairIff(s, vault, signer, groups, mint, i);
    }
    assert FairWhereScaled(Distribute(s, vault, signer, groups, mint).value.credits[i].amount,
                          Plan(s, vault, signer, groups, mint).value, WeightsOf(s, groups), i);
  }

  // A pool of two equal members, distributed once and then given one more watt-hour.

  const SPARE_VAULT := Vault(0, Emission.MAX_SUPPLY_ATOMIC)

  function TwoGroups(): seq<Group> {
    [Group(1, 11, 7, 1, 21, 11, 31, 11, 0), Group(2, 12, 7, 2, 22, 12, 31, 12, 0)]
  }

  function TwoMembers(total: U128, first: U128, second: U128): State {
    State(7, 9, total, 1, [1, 2], map[1 := first, 2 := second])
  }

  function FillSteps(): seq<Step> {
    [JoinStep(1), JoinStep(2)] + [ContributeStep(1, 1_000_000), ContributeStep(2, 1_000_000)]
  }

  function StaleSteps(): seq<Step> {
    FillSteps() + [DistributeStep(SPARE_VAULT, 9, TwoGroups(), 31)] + [ContributeStep(1, 1)]
  }

  lemma {:induction false} RunSnoc(start: State, steps: seq<Step>, step: Step)
    ensures Run(start, steps + [step]) == Next(Run(start, steps), step)
  {
    assert (steps + [step])[..|steps|] == steps;
  }

  lemma {:induction false} TwoGroupsPass(s: State)
    requires s.key == 7 && s.producers == [1, 2] && 1 in s.contributions && 2 in s.contributions
    ensures CheckGroups(s, TwoGroups(), 31) == Pass
  {
    var groups := TwoGroups();
    assert groups[1..] == [groups[1]] && groups[1..][1..] == [];
    assert CheckGroups(s, groups[1..], 31) == Pass;
  }

  lemma {:induction false} TwoWeights(total: U128, first: U128, second: U128)
    requires 0 < total && first * FP_SCALE <= U128_MAX && second * FP_SCALE <= U128_MAX
    ensures var ws := WeightsOf(TwoMembers(total, first, second), TwoGroups());
            ws == [first * FP_SCALE / total, second * FP_SCALE / total]
  {
    NoBonus(first, total);
    NoBonus(second, total);
  }

  lemma {:induction false} NoBonus(energy: U128, total: U128)
    requires 0 < total && energy * FP_SCALE <= U128_MAX
    ensures Weighted(Member(energy, 0), total) == energy * FP_SCALE / total
  {
    assert Bonus(0) == 0;
    assert FpMul(0, ShareFp(energy, total)) == 0;
  }

  lemma {:induction false} SumOfTwo(a: nat, b: nat)
    ensures Sum([a, b]) == a + b
  {
    SumPlus([a], b);
    SumPlus([], a);
    assert [a] + [b] == [a, b] && [] + [a] == [a];
  }

  lemma {:induction false} TwoMembersPlan(total: U64, first: U128, second: U128)
    requires 0 < total && 1000 * total <= Emission.MAX_SUPPLY_ATOMIC
    requires first * FP_SCALE <= U128_MAX && second * FP_SCALE <= U128_MAX
    requires 0 < first * FP_SCALE / total
    ensures Plan(TwoMembers(total, first, second), SPARE_VAULT, 9, TwoGroups(), 31) == Ok(1000 * total)
  {
    var s := TwoMembers(total, first, second);
    TwoGroupsPass(s);
    TwoWeights(total, first, second);
    var ws := WeightsOf(s, TwoGroups());
    SumOfTwo(ws[0], ws[1]);
    SaturatingSumIs(ws);
    Emission.GenesisPeg(total);
  }

  lemma {:induction false} TwoJoin(start: State)
    requires start == Create(7, 9, 1)
    ensures Run(start, [JoinStep(1), JoinStep(2)]) == TwoMembers(0, 0, 0)
  {
    RunSnoc(start, [], JoinStep(1));
    assert [] + [JoinStep(1)] == [JoinStep(1)];
    RunSnoc(start, [JoinStep(1)], JoinStep(2));
    assert [JoinStep(1)] + [JoinStep(2)] == [JoinStep(1), JoinStep(2)];
  }

  lemma {:induction false} PoolIsFilled(start: State)
    requires start == Create(7, 9, 1)
    ensures Run(start, FillSteps()) == TwoMembers(2_000_000, 1_000_000, 1_000_000)
  {
    var joined, first, second := [JoinStep(1), JoinStep(2)], ContributeStep(1, 1_000_000), ContributeStep(2, 1_000_000);
    TwoJoin(start);
    RunSnoc(start, joined, first);
    RunSnoc(start, joined + [first], second);
    assert joined + [first] + [second] == FillSteps();
  }

  /** The pool that has been distributed once and then given one watt-hour by its first member. */
  lemma {:induction false} StalePoolIsReached()
    ensures Run(Create(7, 9, 1), StaleSteps()) == TwoMembers(1, 1_000_001, 1_000_000)
  {
    var start, distribution := Create(7, 9, 1), DistributeStep(SPARE_VAULT, 9, TwoGroups(), 31);
    PoolIsFilled(start);
    RunSnoc(start, FillSteps(), distribution);
    TwoMembersPlan(2_000_000, 1_000_000, 1_000_000);
    RunSnoc(start, FillSteps() + [distribution], ContributeStep(1, 1));
  }

  /** After a distribution contributions may exceed the pool's total, and then fairness does fail: here the
      first of two members, whose weight is more than half of the sum, gets nothing of a reward of 1000. */
  lemma {:induction false} StaleContributionUnfair()
    ensures var s := Run(Create(7, 9, 1), StaleSteps());
            var d := Distribute(s, SPARE_VAULT, 9, TwoGroups(), 31);
            && d.Ok? && d.value.vault.supply == 1000 && d.value.credits[0].amount == 0
            && var ws := WeightsOf(s, TwoGroups()); ws[1] < ws[0] && !Fair(0, 1000, ws[0], Sum(ws))
  {
    var s := TwoMembers(1, 1_000_001, 1_000_000);
    StalePoolIsReached();
    TwoMembersPlan(1, 1_000_001, 1_000_000);
    TwoWeights(1, 1_000_001, 1_000_000);
    var ws := WeightsOf(s, TwoGroups());
    assert ws == [1_000_001 * FP_SCALE, 1_000_000 * FP_SCALE];
    SumOfTwo(ws[0], ws[1]);
    SaturatingSumIs(ws);
    OverflowPaysNothing(1000, ws[0], SaturatingSum(ws));
  }

  function Twice(g: Group): seq<Group> {
    [g, g]
  }

  lemma {:induction false} TwicePlan(s: State, g: Group)
    requires s == TwoMembers(2_000_000, 1_000_000, 1_000_000) && g == TwoGroups()[0]
    ensures Plan(s, SPARE_VAULT, 9, Twice(g), 31) == Ok(2_000_000_000)
  {
    var groups := Twice(g);
    assert groups[1..] == [g] && groups[1..][1..] == [];
    assert CheckGroups(s, groups[1..], 31) == Pass;
    NoBonus(1_000_000, 2_000_000);
    var ws := WeightsOf(s, groups);
    assert ws == [HALF_SHARE, HALF_SHARE];
    SumOfTwo(ws[0], ws[1]);
    SaturatingSumIs(ws);
    Emission.GenesisPeg(2_000_000);
  }

  const HALF_SHARE: U128 := 500_000_000_000_000_000

  /** A repeated group leaves a member out: in the pool two members filled in equal parts, a distribution that
      names the first twice goes through, pays both credits to its account, and nothing to the second. */
  lemma {:induction false} RepeatedGroupLeavesOut()
    ensures var s, g := Run(Create(7, 9, 1), FillSteps()), TwoGroups()[0];
            var d := Distribute(s, SPARE_VAULT, 9, Twice(g), 31);
            && s == TwoMembers(2_000_000, 1_000_000, 1_000_000)
            && d.Ok? && d.value.vault.supply == 2_000_000_000
            && (forall c :: c in d.value.credits ==> c.ata == g.ata)
            && 2 !in Producers(Twice(g))
  {
    PoolIsFilled(Create(7, 9, 1));
    TwicePlan(TwoMembers(2_000_000, 1_000_000, 1_000_000), TwoGroups()[0]);
  }

  lemma {:induction false} ContributionStep(s: State, step: Step, p: Key)
    requires p in s.contributions
    ensures p in Next(s, step).contributions && s.contributions[p] <= Next(s, step).contributions[p]
  {
  }

  /** A distribution empties the pool's total but not its members' contributions: the reset loop writes
      to copies. A contribution only ever grows. */
  lemma {:induction false} ContributionsNeverShrink(start: State, steps: seq<Step>, p: Key)
    requires p in start.contributions
    ensures p in Run(start, steps).contributions && start.contributions[p] <= Run(start, steps).contributions[p]
  {
    if steps == [] {
    } else {
      ContributionsNeverShrink(start, steps[..|steps| - 1], p);
      ContributionStep(Run(start, steps[..|steps| - 1]), steps[|steps| - 1], p);
    }
  }

  // ------------------------------------------------------------- the program

  class PoolProgram {
    const key: Key
    const authority: Key
    const threshold: U128
    const maxSupply: U64
    var totalEnergy: U128
    var producers: seq<Key>
    var contributions: map<Key, U128>
    var supply: U64

    function Accounts(): State
      reads this
    {
      State(key, authority, totalEnergy, threshold, producers, contributions)
    }

    function VaultAccount(): Vault
      reads this
    {
      Vault(supply, maxSupply)
    }

    constructor (key: Key, authority: Key, threshold: U64, vault: Vault)
      ensures Accounts() == Create(key, authority, threshold) && VaultAccount() == vault
    {
      this.key, this.authority, maxSupply, supply := key, authority, vault.maxSupply, vault.supply;
      this.threshold := if threshold == 0 then DEFAULT_POOL_THRESHOLD else threshold;
      totalEnergy, producers, contributions := 0, [], map[];
    }

    method JoinPool(producer: Key) returns (r: Result<()>)
      modifies this
      ensures Commits(Join(old(Accounts()), producer), old(Accounts()), Accounts(), r) && supply == old(supply)
      ensures old(Inv(Accounts())) ==> Inv(Accounts())
    {
      var member := producer in producers;
      :- Need(!member, AlreadyInPool);
      :- Need(|producers| < MAX_PRODUCERS, InvalidParameter);
      producers := producers + [producer];
      if producer !in contributions {
        contributions := contributions[producer := 0];
      }
      r := Ok(());
    }

    /** A member's share of the pool's energy, raised by its reputation bonus. */
    method WeightOf(g: Group) returns (weighted: U128)
      requires g.producer in contributions
      ensures weighted == Weighted(MemberOf(Accounts(), g), totalEnergy)
    {
      var bonus := Bonus(g.score);
      var raw := ShareFp(contributions[g.producer], totalEnergy);
      weighted := AddOrMax(raw, FpMul(bonus, raw));
    }

    /** Pass one: every group checked, and the saturating sum of the weights. */
    method WeightedSum(groups: seq<Group>, mint: Key) returns (checked: Outcome, weightedSum: U128)
      ensures checked == CheckGroups(Accounts(), groups, mint)
      ensures checked == Pass ==> weightedSum == SaturatingSum(Weights(MembersOf(Accounts(), groups), totalEnergy))
    {
      weightedSum := 0;
      ghost var all := Weights(MembersOf(Accounts(), groups), totalEnergy);
      for i := 0 to |groups|
        invariant CheckGroups(Accounts(), groups, mint) == CheckGroups(Accounts(), groups[i..], mint)
        invariant weightedSum == SaturatingSum(all[..i])
      {
        assert groups[i..][1..] == groups[i + 1..];
        checked := CheckGroup(Accounts(), groups[i], mint);
        if checked.Fail? {
          return;
        }
        var weighted := WeightOf(groups[i]);
        weightedSum := AddOrMax(weightedSum, weighted);
        assert all[..i + 1][..i] == all[..i] && all[i] == weighted;
      }
      assert all[..|groups|] == all;
      checked := Pass;
    }

    /** Pass two: the rewards, the last member taking the remainder. */
    method Rewards(groups: seq<Group>, weightedSum: U128, totalReward: U64) returns (rewards: seq<U64>)
      requires groups != [] && |groups| <= MAX_PRODUCERS
      requires 0 < weightedSum == SaturatingSum(Weights(MembersOf(Accounts(), groups), totalEnergy))
      requires forall i :: 0 <= i < |groups| ==> groups[i].producer in contributions
      ensures rewards == Payouts(totalReward, Weights(MembersOf(Accounts(), groups), totalEnergy))
      ensures Sum(rewards) == totalReward
    {
      ghost var ws := Weights(MembersOf(Accounts(), groups), totalEnergy);
      var distributed: U64 := 0;
      rewards := [];
      for i := 0 to |groups|
        invariant i < |groups| ==> rewards == Quotas(totalReward, ws, i) && distributed == Sum(rewards)
        invariant i == |groups| ==> rewards == Payouts(totalReward, ws)
      {
        var weighted := WeightOf(groups[i]);
        assert weighted == ws[i];
        var reward := RewardForShare(totalReward, ShareOfTotal(weighted, weightedSum));
        if i == |groups| - 1 {
          reward := SatSub(totalReward, distributed);
        } else {
          NextQuota(totalReward, ws, i);
        }
        distributed := Min(distributed + reward, U64_MAX);
        rewards := rewards + [reward];
      }
      PayoutsSumToReward(totalReward, ws);
    }

    method PlanDistribution(signer: Key, groups: seq<Group>, mint: Key) returns (r: Result<U64>, weightedSum: U128)
      ensures r == Plan(Accounts(), VaultAccount(), signer, groups, mint)
      ensures r.Ok? ==> weightedSum == SaturatingSum(WeightsOf(Accounts(), groups))
    {
      weightedSum := 0;
      :- Need(signer == authority, Unauthorized);
      :- Need(totalEnergy >= threshold, PoolThresholdNotReached);
      :- Need(producers != [], InvalidParameter);
      :- Need(|groups| == |producers|, InvalidParameter);
      var checked;
      checked, weightedSum := WeightedSum(groups, mint);
      :- checked;
      :- Need(weightedSum > 0, InvalidParameter);
      var totalReward := Emission.CalculateReward(Min(totalEnergy, U64_MAX), supply);
      :- Need(totalReward > 0, ZeroAmountMint);
      :- Need(supply + totalReward <= U64_MAX, ArithmeticOverflow);
      :- Need(supply + totalReward <= maxSupply, SupplyLimitExceeded);
      r := Ok(totalReward);
    }

    method DistributePool(signer: Key, groups: seq<Group>, mint: Key) returns (r: Result<()>, credits: seq<Credit>)
      requires Inv(Accounts())
      modifies this
      ensures match Distribute(old(Accounts()), old(VaultAccount()), signer, groups, mint)
              case Ok(d) => r == Ok(()) && Accounts() == d.state && VaultAccount() == d.vault && credits == d.credits
                            && Sum(Paid(credits)) == supply - old(supply)
              case Err(e) => r == Err(e) && Accounts() == old(Accounts()) && supply == old(supply) && credits == []
    {
      credits := [];
      var plan, weightedSum := PlanDistribution(signer, groups, mint);
      var totalReward :- plan;
      PlanIsSound(Accounts(), VaultAccount(), signer, groups, mint);
      var rewards := Rewards(groups, weightedSum, totalReward);
      credits := Credits(groups, rewards);
      assert Paid(credits) == rewards;
      supply := supply + totalReward;
      totalEnergy := 0;
      r := Ok(());
    }
  }
}
