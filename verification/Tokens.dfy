/** The token ledger: every instruction that creates, moves or destroys SRC, with the vault's own
    count of the supply. */
module Tokens {
  import opened Arithmetic
  import opened MapSums
  import opened Protocol
  import Emission
  import Pool

  const FOUNDER_ALLOCATION: U64 := 200_000_000_000_000_000

  datatype Fund = Buyback | Staking | Dao | Emergency

  /** The fund token accounts recorded at initialization. */
  datatype Funds = Funds(buyback: Key, staking: Key, dao: Key, emergency: Key) {
    function Account(fund: Fund): Key {
      match fund
      case Buyback => buyback
      case Staking => staking
      case Dao => dao
      case Emergency => emergency
    }
  }

  datatype State = State(
    balances: map<Key, U64>, supply: U64, maxSupply: U64, funds: Funds, founderMinted: bool, founderAccount: Key)

  /** The protocol once its token and vault are initialized: nothing minted yet. */
  function Initial(funds: Funds): State {
    State(map[funds.buyback := 0, funds.staking := 0, funds.dao := 0, funds.emergency := 0],
          0, Emission.MAX_SUPPLY_ATOMIC, funds, false, NO_KEY)
  }

  // ------------------------------------------------------------- the token program

  /** `token::mint_to` and one half of a transfer. */
  function Credit(balances: map<Key, U64>, account: Key, amount: U64): Result<map<Key, U64>> {
    var known := account in balances;
    :- Need(known, AccountMissing);
    :- Need(balances[account] + amount <= U64_MAX, ArithmeticOverflow);
    Ok(balances[account := balances[account] + amount])
  }

  /** `token::burn` and the other half. */
  function Debit(balances: map<Key, U64>, account: Key, amount: U64): Result<map<Key, U64>> {
    var known := account in balances;
    :- Need(known, AccountMissing);
    :- Need(amount <= balances[account], InsufficientFunds);
    Ok(balances[account := balances[account] - amount])
  }

  function Move(balances: map<Key, U64>, from: Key, to: Key, amount: U64): Result<map<Key, U64>> {
    var debited :- Debit(balances, from, amount);
    Credit(debited, to, amount)
  }

  function CreditAll(balances: map<Key, U64>, credits: seq<Pool.Credit>): Result<map<Key, U64>> {
    if credits == [] then Ok(balances)
    else
      var credited :- Credit(balances, credits[0].ata, credits[0].amount);
      CreditAll(credited, credits[1..])
  }

  // ------------------------------------------------------------- the reward split

  datatype Split = Split(user: U64, buyback: U64, staking: U64, dao: U64, emergency: U64)

  function PercentOf(amount: U64, percent: U64): Result<U64> {
    var product := amount * percent;
    :- Need(product <= U64_MAX, ArithmeticOverflow);
    Ok(product / 100)
  }

  /** Eighty-five percent to the user; the fee is split 20/40/30 and the emergency fund takes what is left. */
  function SplitReward(reward: U64): Result<Split> {
    var user :- PercentOf(reward, 85);
    :- Need(user <= reward, ArithmeticOverflow);
    var fee := reward - user;
    var buyback :- PercentOf(fee, 20);
    var staking :- PercentOf(fee, 40);
    var dao :- PercentOf(fee, 30);
    :- Need(buyback + staking + dao <= fee, ArithmeticOverflow);
    Ok(Split(user, buyback, staking, dao, fee - buyback - staking - dao))
  }

  /** The split fails only where 85 times the reward overflows, and it loses nothing: the parts are the
      exact percentages rounded down, except that the emergency fund also gets every remainder. */
  lemma {:induction false} SplitLosesNothing(reward: U64)
    ensures SplitReward(reward).Ok? <==> reward * 85 <= U64_MAX
    ensures SplitReward(reward).Err? ==> SplitReward(reward) == Err(ArithmeticOverflow)
    ensures SplitReward(reward).Ok? ==>
      var p := SplitReward(reward).value;
      var fee := reward - p.user;
      && p.user + p.buyback + p.staking + p.dao + p.emergency == reward
      && 100 * p.user <= 85 * reward < 100 * p.user + 100
      && 100 * p.buyback <= 20 * fee < 100 * p.buyback + 100
      && 100 * p.staking <= 40 * fee < 100 * p.staking + 100
      && 100 * p.dao <= 30 * fee < 100 * p.dao + 100
      && 10 * fee <= 100 * p.emergency < 10 * fee + 300
  {
  }

  /** What a list of credits pays into one account. */
  function Received(credits: seq<Pool.Credit>, account: Key): nat {
    if credits == [] then 0
    else (if credits[0].ata == account then credits[0].amount else 0) + Received(credits[1..], account)
  }

  /** Every account gets exactly what the credits pay into it. */
  lemma {:induction false} CreditAllPays(balances: map<Key, U64>, credits: seq<Pool.Credit>, account: Key)
    requires CreditAll(balances, credits).Ok? && account in balances
    ensures var after := CreditAll(balances, credits).value;
            account in after && after[account] == balances[account] + Received(credits, account)
    decreases |credits|
  {
    if credits == [] {
    } else {
      CreditAllPays(Credit(balances, credits[0].ata, credits[0].amount).value, credits[1..], account);
    }
  }

  /** A transfer takes the amount from one account, gives it to the other, and touches nothing else. */
  lemma {:induction false} MoveIsExact(balances: map<Key, U64>, from: Key, to: Key, amount: U64, account: Key)
    requires Move(balances, from, to, amount).Ok?
    ensures var after := Move(balances, from, to, amount).value;
            && after.Keys == balances.Keys && amount <= balances[from]
            && (account in balances ==>
                  after[account] == balances[account]
                    - (if account == from then amount else 0) + (if account == to then amount else 0))
  {
  }

  function SplitCredits(p: Split, user: Key, funds: Funds): seq<Pool.Credit> {
    [Pool.Credit(user, p.user), Pool.Credit(funds.buyback, p.buyback), Pool.Credit(funds.staking, p.staking),
     Pool.Credit(funds.dao, p.dao), Pool.Credit(funds.emergency, p.emergency)]
  }

  // ------------------------------------------------------------- the instructions

  /** Creating an empty token account, by anyone. */
  function Open(s: State, account: Key): Result<State> {
    var used := account in s.balances;
    :- Need(!used, AccountInUse);
    Ok(s.(balances := s.balances[account := 0]))
  }

  /** The token part of `mint_energy`; `enforced` is the policy's supply-cap switch. */
  function MintReward(s: State, reward: U64, user: Key, enforced: bool): Result<State> {
    var newSupply := s.supply + reward;
    :- Need(0 < reward, ZeroAmountMint);
    :- Need(enforced ==> newSupply <= U64_MAX, ArithmeticOverflow);
    :- Need(enforced ==> newSupply <= s.maxSupply, SupplyLimitExceeded);
    :- Need(newSupply <= U64_MAX, ArithmeticOverflow);
    var split :- SplitReward(reward);
    var balances :- CreditAll(s.balances, SplitCredits(split, user, s.funds));
    Ok(s.(balances := balances, supply := newSupply))
  }

  /** The token part of `distribute_pool`, for a pool that join_pool has kept to its size. */
  function DistributePool(s: State, atas: seq<Key>, members: seq<Pool.Member>, energy: U128): Result<State> {
    var fits := members != [] && |members| <= Pool.MAX_PRODUCERS && |atas| == |members|;
    :- Need(fits, InvalidParameter);
    var ws := Pool.Weights(members, energy);
    :- Need(0 < Pool.SaturatingSum(ws), InvalidParameter);
    var total := Emission.CalculateReward(Min(energy, U64_MAX), s.supply);
    :- Need(0 < total, ZeroAmountMint);
    :- Need(s.supply + total <= U64_MAX, ArithmeticOverflow);
    :- Need(s.supply + total <= s.maxSupply, SupplyLimitExceeded);
    var balances :- CreditAll(s.balances, PoolCredits(atas, Pool.Payouts(total, ws)));
    Ok(s.(balances := balances, supply := s.supply + total))
  }

  function PoolCredits(atas: seq<Key>, amounts: seq<U64>): (cs: seq<Pool.Credit>)
    requires |atas| == |amounts|
    ensures |cs| == |atas| && forall i :: 0 <= i < |cs| ==> cs[i] == Pool.Credit(atas[i], amounts[i])
  {
    seq(|atas|, i requires 0 <= i < |atas| => Pool.Credit(atas[i], amounts[i]))
  }

  function AllocateFounder(s: State, account: Wallet, isFounder: bool): Result<State> {
    var newSupply := s.supply + FOUNDER_ALLOCATION;
    :- Need(isFounder, Unauthorized);
    :- Need(!s.founderMinted, FounderPremineAlreadyMinted);
    :- Need(s.founderAccount == NO_KEY || s.founderAccount == account, InvalidParameter);
    :- Need(newSupply <= U64_MAX, ArithmeticOverflow);
    :- Need(newSupply <= s.maxSupply, SupplyLimitExceeded);
    var balances :- Credit(s.balances, account, FOUNDER_ALLOCATION);
    Ok(s.(balances := balances, supply := newSupply, founderMinted := true, founderAccount := account))
  }

  /** The token part of `governance_mint`. */
  function GovernanceMint(s: State, amount: U64, destination: Key): Result<State> {
    var newSupply := s.supply + amount;
    :- Need(newSupply <= U64_MAX, ArithmeticOverflow);
    :- Need(newSupply <= s.maxSupply, SupplyLimitExceeded);
    var balances :- Credit(s.balances, destination, amount);
    Ok(s.(balances := balances, supply := newSupply))
  }

  function BuybackAndBurn(s: State, amount: U64, isAuthority: bool): Result<State> {
    var known := s.funds.buyback in s.balances;
    :- Need(isAuthority, Unauthorized);
    :- Need(0 < amount, ZeroAmountMint);
    :- Need(known, AccountMissing);
    :- Need(amount <= s.balances[s.funds.buyback], InsufficientStake);
    var balances :- Debit(s.balances, s.funds.buyback, amount);
    :- Need(amount <= s.supply, ArithmeticOverflow);
    Ok(s.(balances := balances, supply := s.supply - amount))
  }

  function WithdrawFund(s: State, fund: Fund, amount: U64, destination: Key, isAuthority: bool): Result<State> {
    var source := s.funds.Account(fund);
    :- Need(isAuthority, Unauthorized);
    :- Need(0 < amount, ZeroAmountMint);
    :- Need(source in s.balances, AccountMissing);
    :- Need(amount <= s.balances[source], InsufficientStake);
    var balances :- Move(s.balances, source, destination, amount);
    Ok(s.(balances := balances))
  }

  /** The transfer of `claim_oracle_reward`. */
  function PayOracle(s: State, reward: U64, ata: Key): Result<State> {
    var balances :- Move(s.balances, s.funds.staking, ata, reward);
    Ok(s.(balances := balances))
  }

  /** Any other transfer of tokens, whoever signs it. */
  function Transfer(s: State, from: Key, to: Key, amount: U64): Result<State> {
    var balances :- Move(s.balances, from, to, amount);
    Ok(s.(balances := balances))
  }

  // ------------------------------------------------------------- runs

  datatype Step =
    | OpenStep(account: Key)
    | MintStep(reward: U64, user: Key, enforced: bool)
    | DistributeStep(atas: seq<Key>, members: seq<Pool.Member>, energy: U128)
    | FounderStep(wallet: Wallet, isFounder: bool)
    | GovernanceStep(amount: U64, destination: Key)
    | BurnStep(amount: U64, isAuthority: bool)
    | WithdrawStep(fund: Fund, amount: U64, destination: Key, isAuthority: bool)
    | OracleStep(amount: U64, destination: Key)
    | TransferStep(from: Key, to: Key, amount: U64)

  function Attempt(s: State, step: Step): Result<State> {
    match step
    case OpenStep(account) => Open(s, account)
    case MintStep(reward, user, enforced) => MintReward(s, reward, user, enforced)
    case DistributeStep(atas, members, energy) => DistributePool(s, atas, members, energy)
    case FounderStep(wallet, isFounder) => AllocateFounder(s, wallet, isFounder)
    case GovernanceStep(amount, destination) => GovernanceMint(s, amount, destination)
    case BurnStep(amount, isAuthority) => BuybackAndBurn(s, amount, isAuthority)
    case WithdrawStep(fund, amount, destination, isAuthority) => WithdrawFund(s, fund, amount, destination, isAuthority)
    case OracleStep(amount, destination) => PayOracle(s, amount, destination)
    case TransferStep(from, to, amount) => Transfer(s, from, to, amount)
  }

  function Next(s: State, step: Step): State {
    Settle(Attempt(s, step), s)
  }

  function Run(funds: Funds, steps: seq<Step>): State {
    if steps == [] then Initial(funds) else Next(Run(funds, steps[..|steps| - 1]), steps[|steps| - 1])
  }

  // ------------------------------------------------------------- conservation

  function Identity(n: U64): nat {
    n
  }

  ghost function Circulating(balances: map<Key, U64>): nat {
    Sum<Key, U64>(balances, Identity)
  }

  /** The vault's count is the sum of all balances. */
  ghost predicate Inv(s: State) {
    s.supply == Circulating(s.balances)
  }

  lemma {:induction false} CreditAdds(balances: map<Key, U64>, account: Key, amount: U64)
    requires Credit(balances, account, amount).Ok?
    ensures Circulating(Credit(balances, account, amount).value) == Circulating(balances) + amount
  {
    SumUpdate<Key, U64>(balances, Identity, account, balances[account] + amount);
  }

  lemma {:induction false} DebitTakes(balances: map<Key, U64>, account: Key, amount: U64)
    requires Debit(balances, account, amount).Ok?
    ensures Circulating(Debit(balances, account, amount).value) + amount == Circulating(balances)
  {
    SumUpdate<Key, U64>(balances, Identity, account, balances[account] - amount);
  }

  lemma {:induction false} MoveConserves(balances: map<Key, U64>, from: Key, to: Key, amount: U64)
    requires Move(balances, from, to, amount).Ok?
    ensures Circulating(Move(balances, from, to, amount).value) == Circulating(balances)
  {
    DebitTakes(balances, from, amount);
    CreditAdds(Debit(balances, from, amount).value, to, amount);
  }

  function Amounts(credits: seq<Pool.Credit>): nat {
    if credits == [] then 0 else credits[0].amount + Amounts(credits[1..])
  }

  lemma {:induction false} CreditAllAdds(balances: map<Key, U64>, credits: seq<Pool.Credit>)
    requires CreditAll(balances, credits).Ok?
    ensures Circulating(CreditAll(balances, credits).value) == Circulating(balances) + Amounts(credits)
    decreases |credits|
  {
    if credits == [] {
    } else {
      CreditAdds(balances, credits[0].ata, credits[0].amount);
      CreditAllAdds(Credit(balances, credits[0].ata, credits[0].amount).value, credits[1..]);
    }
  }

  lemma {:induction false} SplitAmounts(reward: U64, user: Key, funds: Funds)
    requires SplitReward(reward).Ok?
    ensures Amounts(SplitCredits(SplitReward(reward).value, user, funds)) == reward
  {
    var p := SplitReward(reward).value;
    SplitLosesNothing(reward);
    var credits := SplitCredits(p, user, funds);
    assert credits[1..] == [Pool.Credit(funds.buyback, p.buyback)] + credits[2..];
    assert credits[2..] == [Pool.Credit(funds.staking, p.staking)] + credits[3..];
    assert credits[3..] == [Pool.Credit(funds.dao, p.dao)] + credits[4..];
    assert credits[4..] == [Pool.Credit(funds.emergency, p.emergency)];
    assert Amounts(credits[4..]) == p.emergency;
    assert Amounts(credits[3..]) == p.dao + Amounts(credits[4..]);
    assert Amounts(credits[2..]) == p.staking + Amounts(credits[3..]);
    assert Amounts(credits[1..]) == p.buyback + Amounts(credits[2..]);
  }

  /** A mint's five parts go to the user and the four funds, each account getting the parts addressed to
      it, and no other balance moves. */
  lemma {:induction false} MintPaysParts(s: State, reward: U64, user: Key, enforced: bool, account: Key)
    requires MintReward(s, reward, user, enforced).Ok? && account in s.balances
    ensures var p, f, after := SplitReward(reward).value, s.funds, MintReward(s, reward, user, enforced).value.balances;
            account in after &&
            after[account] == s.balances[account]
              + (if account == user then p.user else 0) + (if account == f.buyback then p.buyback else 0)
              + (if account == f.staking then p.staking else 0) + (if account == f.dao then p.dao else 0)
              + (if account == f.emergency then p.emergency else 0)
  {
    var p, f := SplitReward(reward).value, s.funds;
    var credits := SplitCredits(p, user, f);
    CreditAllPays(s.balances, credits, account);
    assert credits[1..] == [Pool.Credit(f.buyback, p.buyback)] + credits[2..];
    assert credits[2..] == [Pool.Credit(f.staking, p.staking)] + credits[3..];
    assert credits[3..] == [Pool.Credit(f.dao, p.dao)] + credits[4..];
    assert credits[4..] == [Pool.Credit(f.emergency, p.emergency)];
    assert Received(credits[4..], account) == if f.emergency == account then p.emergency else 0;
    assert Received(credits[3..], account) == (if f.dao == account then p.dao else 0) + Received(credits[4..], account);
    assert Received(credits[2..], account) == (if f.staking == account then p.staking else 0) + Received(credits[3..], account);
    assert Received(credits[1..], account) == (if f.buyback == account then p.buyback else 0) + Received(credits[2..], account);
  }

  lemma {:induction false} AmountsAre(atas: seq<Key>, amounts: seq<U64>)
    requires |atas| == |amounts|
    ensures Amounts(PoolCredits(atas, amounts)) == Pool.Sum(amounts)
  {
    if atas == [] {
    } else {
      var n := |atas| - 1;
      AmountsAre(atas[..n], amounts[..n]);
      assert PoolCredits(atas, amounts) == PoolCredits(atas[..n], amounts[..n]) + [Pool.Credit(atas[n], amounts[n])];
      AmountsSnoc(PoolCredits(atas[..n], amounts[..n]), Pool.Credit(atas[n], amounts[n]));
    }
  }

  lemma {:induction false} AmountsSnoc(credits: seq<Pool.Credit>, last: Pool.Credit)
    ensures Amounts(credits + [last]) == Amounts(credits) + last.amount
  {
    if credits == [] {
      assert credits + [last] == [last];
      assert Amounts([last]) == last.amount;
    } else {
      assert (credits + [last])[1..] == credits[1..] + [last];
      AmountsSnoc(credits[1..], last);
    }
  }

  lemma {:induction false} MintKeeps(s: State, reward: U64, user: Key, enforced: bool)
    requires Inv(s)
    ensures Inv(Settle(MintReward(s, reward, user, enforced), s))
  {
    var r := MintReward(s, reward, user, enforced);
    if r.Ok? {
      var credits := SplitCredits(SplitReward(reward).value, user, s.funds);
      SplitAmounts(reward, user, s.funds);
      CreditAllAdds(s.balances, credits);
    }
  }

  lemma {:induction false} DistributeKeeps(s: State, atas: seq<Key>, members: seq<Pool.Member>, energy: U128)
    requires Inv(s)
    ensures Inv(Settle(DistributePool(s, atas, members, energy), s))
  {
    var r := DistributePool(s, atas, members, energy);
    if r.Ok? {
      var ws := Pool.Weights(members, energy);
      var total := Emission.CalculateReward(Min(energy, U64_MAX), s.supply);
      Pool.PayoutsSumToReward(total, ws);
      AmountsAre(atas, Pool.Payouts(total, ws));
      CreditAllAdds(s.balances, PoolCredits(atas, Pool.Payouts(total, ws)));
    }
  }

  lemma {:induction false} NextKeeps(s: State, step: Step)
    requires Inv(s)
    ensures Inv(Next(s, step))
  {
    if Attempt(s, step).Ok? {
      match step
      case OpenStep(account) => SumUpdate<Key, U64>(s.balances, Identity, account, 0);
      case MintStep(reward, user, enforced) => MintKeeps(s, reward, user, enforced);
      case DistributeStep(atas, members, energy) => DistributeKeeps(s, atas, members, energy);
      case FounderStep(wallet, _) => CreditAdds(s.balances, wallet, FOUNDER_ALLOCATION);
      case GovernanceStep(amount, destination) => CreditAdds(s.balances, destination, amount);
      case BurnStep(amount, _) => DebitTakes(s.balances, s.funds.buyback, amount);
      case WithdrawStep(fund, amount, destination, _) => MoveConserves(s.balances, s.funds.Account(fund), destination, amount);
      case OracleStep(amount, destination) => MoveConserves(s.balances, s.funds.staking, destination, amount);
      case TransferStep(from, to, amount) => MoveConserves(s.balances, from, to, amount);
    }
  }

  /** Over every run of the protocol the vault's total_supply is the sum of all token balances. */
  lemma {:induction false} SupplyIsBalances(funds: Funds, steps: seq<Step>)
    ensures Run(funds, steps).supply == Circulating(Run(funds, steps).balances)
  {
    if steps == [] {
      SumOfZeros<Key, U64>(Initial(funds).balances, Identity);
    } else {
      SupplyIsBalances(funds, steps[..|steps| - 1]);
      NextKeeps(Run(funds, steps[..|steps| - 1]), steps[|steps| - 1]);
    }
  }

  ghost predicate CapOn(steps: seq<Step>) {
    forall i :: 0 <= i < |steps| && steps[i].MintStep? ==> steps[i].enforced
  }

  lemma {:induction false} CapStep(s: State, step: Step)
    requires s.supply <= s.maxSupply && (step.MintStep? ==> step.enforced)
    ensures Next(s, step).supply <= Next(s, step).maxSupply == s.maxSupply
  {
  }

  /** While the supply cap is enforced on every mint, the supply never exceeds it. */
  lemma {:induction false} SupplyWithinCap(funds: Funds, steps: seq<Step>)
    requires CapOn(steps)
    ensures Run(funds, steps).supply <= Run(funds, steps).maxSupply == Emission.MAX_SUPPLY_ATOMIC
  {
    if steps == [] {
    } else {
      SupplyWithinCap(funds, steps[..|steps| - 1]);
      CapStep(Run(funds, steps[..|steps| - 1]), steps[|steps| - 1]);
    }
  }

  /** One mint with the switch off is enough to pass the cap. */
  lemma {:induction false} UnenforcedMintPassesCap(s: State, reward: U64, user: Key)
    requires s.supply == s.maxSupply == Emission.MAX_SUPPLY_ATOMIC && Inv(s)
    requires 0 < reward && reward * 85 <= U64_MAX
    requires user in s.balances && s.funds.buyback in s.balances && s.funds.staking in s.balances
    requires s.funds.dao in s.balances && s.funds.emergency in s.balances
    ensures MintReward(s, reward, user, true) == Err(SupplyLimitExceeded)
    ensures MintReward(s, reward, user, false).Ok? && s.maxSupply < MintReward(s, reward, user, false).value.supply
  {
    SplitLosesNothing(reward);
    var credits := SplitCredits(SplitReward(reward).value, user, s.funds);
    SplitAmounts(reward, user, s.funds);
    CreditsFit(s.balances, credits);
  }

  /** A balance is never more than the supply, so a credit that fits the supply fits the account. */
  lemma {:induction false} CreditsFit(balances: map<Key, U64>, credits: seq<Pool.Credit>)
    requires Circulating(balances) + Amounts(credits) <= U64_MAX
    requires forall i :: 0 <= i < |credits| ==> credits[i].ata in balances
    ensures CreditAll(balances, credits).Ok?
    decreases |credits|
  {
    if credits == [] {
    } else {
      var first := credits[0];
      SumAtLeast<Key, U64>(balances, Identity, first.ata);
      CreditAdds(balances, first.ata, first.amount);
      CreditsFit(Credit(balances, first.ata, first.amount).value, credits[1..]);
    }
  }

  /** The burn's supply check never fails: no balance exceeds the supply. */
  lemma {:induction false} BurnNeverUnderflows(funds: Funds, steps: seq<Step>, amount: U64)
    ensures BuybackAndBurn(Run(funds, steps), amount, true) != Err(ArithmeticOverflow)
  {
    var s := Run(funds, steps);
    SupplyIsBalances(funds, steps);
    SumAtLeast<Key, U64>(s.balances, Identity, s.funds.buyback);
  }

  // ------------------------------------------------------------- what each instruction moves

  /** No account but `from` loses and none but `to` gains, each exactly the amount. */
  ghost predicate MovedOnly(before: map<Key, U64>, after: map<Key, U64>, from: Option<Key>, to: Option<Key>, amount: nat) {
    && after.Keys == before.Keys
    && forall k :: k in before ==>
         after[k] == before[k] - (if from == Some(k) then amount else 0) + (if to == Some(k) then amount else 0)
  }

  lemma {:induction false} MoveIff(balances: map<Key, U64>, from: Key, to: Key, amount: U64)
    requires Circulating(balances) <= U64_MAX
    ensures Move(balances, from, to, amount).Ok? <==> from in balances && amount <= balances[from] && to in balances
  {
    if from in balances && amount <= balances[from] && to in balances {
      DebitTakes(balances, from, amount);
      SumAtLeast<Key, U64>(Debit(balances, from, amount).value, Identity, to);
    }
  }

  lemma {:induction false} CreditIff(balances: map<Key, U64>, account: Key, amount: U64)
    requires Circulating(balances) + amount <= U64_MAX
    ensures Credit(balances, account, amount).Ok? <==> account in balances
  {
    SumAtLeast<Key, U64>(balances, Identity, account);
  }

  /** A withdrawal goes through exactly for the authority, out of a covered fund, and moves the amount from the fund
      it names to the destination. */
  lemma {:induction false} WithdrawIs(s: State, fund: Fund, amount: U64, destination: Key, isAuthority: bool)
    requires Inv(s)
    ensures var source := if fund == Buyback then s.funds.buyback else if fund == Staking then s.funds.staking
                          else if fund == Dao then s.funds.dao else s.funds.emergency;
            var r := WithdrawFund(s, fund, amount, destination, isAuthority);
            && (r.Ok? <==> isAuthority && 1 <= amount && source in s.balances && amount <= s.balances[source] && destination in s.balances)
            && (r.Ok? ==> r.value == s.(balances := r.value.balances)
                          && MovedOnly(s.balances, r.value.balances, Some(source), Some(destination), amount))
  {
    MoveIff(s.balances, s.funds.Account(fund), destination, amount);
  }

  /** An oracle is paid exactly out of a staking fund that covers the reward, to the account it names. */
  lemma {:induction false} PayOracleIs(s: State, reward: U64, ata: Key)
    requires Inv(s)
    ensures var r := PayOracle(s, reward, ata);
            && (r.Ok? <==> s.funds.staking in s.balances && reward <= s.balances[s.funds.staking] && ata in s.balances)
            && (r.Ok? ==> r.value == s.(balances := r.value.balances)
                          && MovedOnly(s.balances, r.value.balances, Some(s.funds.staking), Some(ata), reward))
  {
    MoveIff(s.balances, s.funds.staking, ata, reward);
  }

  /** A burn takes the amount out of the buyback fund and out of the supply, for the authority and while the fund
      covers it. */
  lemma {:induction false} BurnIs(s: State, amount: U64, isAuthority: bool)
    requires Inv(s)
    ensures var r := BuybackAndBurn(s, amount, isAuthority);
            && (r.Ok? <==> isAuthority && 1 <= amount && s.funds.buyback in s.balances && amount <= s.balances[s.funds.buyback])
            && (r.Ok? ==> r.value == s.(balances := r.value.balances, supply := s.supply - amount)
                          && MovedOnly(s.balances, r.value.balances, Some(s.funds.buyback), None, amount))
  {
    SumAtLeast<Key, U64>(s.balances, Identity, s.funds.buyback);
  }

  /** Governance mints to the destination exactly while the cap leaves room. */
  lemma {:induction false} GovernanceMintIs(s: State, amount: U64, destination: Key)
    requires Inv(s)
    ensures var r := GovernanceMint(s, amount, destination);
            && (r.Ok? <==> s.supply + amount <= s.maxSupply && destination in s.balances)
            && (r.Ok? ==> r.value == s.(balances := r.value.balances, supply := s.supply + amount)
                          && MovedOnly(s.balances, r.value.balances, None, Some(destination), amount))
  {
    if s.supply + amount <= s.maxSupply {
      CreditIff(s.balances, destination, amount);
    }
  }

  /** The founder receives two hundred million tokens, exactly once, at the account then locked in. */
  lemma {:induction false} FounderIs(s: State, account: Wallet, isFounder: bool)
    requires Inv(s)
    ensures var r := AllocateFounder(s, account, isFounder);
            && (r.Ok? <==> isFounder && !s.founderMinted && (s.founderAccount == 0 || s.founderAccount == account)
                           && s.supply + 200_000_000_000_000_000 <= s.maxSupply && account in s.balances)
            && (r.Ok? ==> r.value == s.(balances := r.value.balances, supply := s.supply + 200_000_000_000_000_000,
                                        founderMinted := true, founderAccount := account)
                          && MovedOnly(s.balances, r.value.balances, None, Some(account), 200_000_000_000_000_000))
  {
    if s.supply + 200_000_000_000_000_000 <= s.maxSupply {
      CreditIff(s.balances, account, FOUNDER_ALLOCATION);
    }
  }

  lemma {:induction false} CreditsNeedAccounts(balances: map<Key, U64>, credits: seq<Pool.Credit>, i: nat)
    requires CreditAll(balances, credits).Ok? && i < |credits|
    ensures credits[i].ata in balances
    decreases |credits|
  {
    if i != 0 {
      CreditsNeedAccounts(Credit(balances, credits[0].ata, credits[0].amount).value, credits[1..], i - 1);
    }
  }

  lemma {:induction false} FundsNeeded(balances: map<Key, U64>, p: Split, user: Key, funds: Funds)
    requires CreditAll(balances, SplitCredits(p, user, funds)).Ok?
    ensures user in balances && funds.buyback in balances && funds.staking in balances && funds.dao in balances
    ensures funds.emergency in balances
  {
    var credits := SplitCredits(p, user, funds);
    CreditsNeedAccounts(balances, credits, 0);
    CreditsNeedAccounts(balances, credits, 1);
    CreditsNeedAccounts(balances, credits, 2);
    CreditsNeedAccounts(balances, credits, 3);
    CreditsNeedAccounts(balances, credits, 4);
  }

  /** A reward is minted exactly if it is not zero, 85 times it fits 64 bits, the supply has room for it, under the
      cap where that is enforced, and the five accounts exist. */
  lemma {:induction false} MintRewardIff(s: State, reward: U64, user: Key, enforced: bool)
    requires Inv(s)
    ensures MintReward(s, reward, user, enforced).Ok? <==>
              && 1 <= reward && reward * 85 <= U64_MAX && s.supply + reward <= U64_MAX
              && (enforced ==> s.supply + reward <= s.maxSupply)
              && user in s.balances && s.funds.buyback in s.balances && s.funds.staking in s.balances
              && s.funds.dao in s.balances && s.funds.emergency in s.balances
    ensures MintReward(s, reward, user, enforced).Ok? ==> MintReward(s, reward, user, enforced).value.supply == s.supply + reward
  {
    SplitLosesNothing(reward);
    if reward * 85 <= U64_MAX {
      var p := SplitReward(reward).value;
      var credits := SplitCredits(p, user, s.funds);
      SplitAmounts(reward, user, s.funds);
      if MintReward(s, reward, user, enforced).Ok? {
        FundsNeeded(s.balances, p, user, s.funds);
      }
      if s.supply + reward <= U64_MAX && user in s.balances && s.funds.buyback in s.balances
         && s.funds.staking in s.balances && s.funds.dao in s.balances && s.funds.emergency in s.balances {
        CreditsFit(s.balances, credits);
      }
    }
  }

  /** A distribution pays every account what the pool's payouts address to it, and nothing else. */
  lemma {:induction false} DistributionPays(s: State, atas: seq<Key>, members: seq<Pool.Member>, energy: U128, account: Key)
    requires DistributePool(s, atas, members, energy).Ok? && account in s.balances
    ensures var t := DistributePool(s, atas, members, energy).value;
            var total := Emission.CalculateReward(Min(energy, U64_MAX), s.supply);
            && t.supply == s.supply + total <= s.maxSupply
            && |atas| == |members| && 0 < Pool.SaturatingSum(Pool.Weights(members, energy))
            && account in t.balances && t.balances[account] == s.balances[account]
                 + Received(PoolCredits(atas, Pool.Payouts(total, Pool.Weights(members, energy))), account)
  {
    var total := Emission.CalculateReward(Min(energy, U64_MAX), s.supply);
    CreditAllPays(s.balances, PoolCredits(atas, Pool.Payouts(total, Pool.Weights(members, energy))), account);
  }

  // ------------------------------------------------------------- the founder's premine

  function Premines(funds: Funds, steps: seq<Step>): nat {
    if steps == [] then 0
    else
      var before := steps[..|steps| - 1];
      Premines(funds, before) + if steps[|before|].FounderStep? && Attempt(Run(funds, before), steps[|before|]).Ok? then 1 else 0
  }

  lemma {:induction false} FounderFlagStep(s: State, step: Step)
    ensures Next(s, step).founderMinted <==> s.founderMinted || (step.FounderStep? && Attempt(s, step).Ok?)
    ensures step.FounderStep? && Attempt(s, step).Ok? ==> !s.founderMinted
    ensures s.founderMinted ==> Next(s, step).founderAccount == s.founderAccount
  {
  }

  /** The founder's fifth of the cap is minted at most once over every run. */
  lemma {:induction false} PremineOnce(funds: Funds, steps: seq<Step>)
    ensures Premines(funds, steps) == if Run(funds, steps).founderMinted then 1 else 0
    ensures 5 * FOUNDER_ALLOCATION * Premines(funds, steps) <= 1_000_000_000_000_000_000
  {
    if steps == [] {
    } else {
      PremineOnce(funds, steps[..|steps| - 1]);
      FounderFlagStep(Run(funds, steps[..|steps| - 1]), steps[|steps| - 1]);
    }
  }

  // ------------------------------------------------------------- the program

  /** The token accounts and the vault, updated in place; a failed instruction commits nothing. */
  class TokenProgram {
    const funds: Funds
    const maxSupply: U64
    var balances: map<Key, U64>
    var supply: U64
    var founderMinted: bool
    var founderAccount: Key

    function Accounts(): State
      reads this
    {
      State(balances, supply, maxSupply, funds, founderMinted, founderAccount)
    }

    constructor (funds: Funds)
      ensures Accounts() == Initial(funds)
    {
      this.funds := funds;
      maxSupply := Emission.MAX_SUPPLY_ATOMIC;
      balances := map[funds.buyback := 0, funds.staking := 0, funds.dao := 0, funds.emergency := 0];
      supply, founderMinted, founderAccount := 0, false, NO_KEY;
    }

    /** `token::mint_to` on the instruction's working copy of the token accounts. */
    method MintTo(tokens: map<Key, U64>, account: Key, amount: U64) returns (r: Result<map<Key, U64>>)
      ensures r == Credit(tokens, account, amount)
    {
      var known := account in tokens;
      :- Need(known, AccountMissing);
      :- Need(tokens[account] + amount <= U64_MAX, ArithmeticOverflow);
      r := Ok(tokens[account := tokens[account] + amount]);
    }

    method TransferTokens(tokens: map<Key, U64>, from: Key, to: Key, amount: U64) returns (r: Result<map<Key, U64>>)
      ensures r == Move(tokens, from, to, amount)
    {
      var known := from in tokens;
      :- Need(known, AccountMissing);
      :- Need(amount <= tokens[from], InsufficientFunds);
      var debited := tokens[from := tokens[from] - amount];
      r := MintTo(debited, to, amount);
    }

    /** The split computed step by step. Past the first, no checked operation can fail. */
    method Distributions(reward: U64) returns (r: Result<Split>)
      ensures r == SplitReward(reward)
    {
      var product := reward * 85;
      :- Need(product <= U64_MAX, ArithmeticOverflow);
      var user := product / 100;
      var fee: U64 := reward - user;
      assert fee * 40 <= U64_MAX;
      var buyback, staking, dao := fee * 20 / 100, fee * 40 / 100, fee * 30 / 100;
      var emergency: U64 := fee - buyback;
      emergency := emergency - staking;
      emergency := emergency - dao;
      r := Ok(Split(user, buyback, staking, dao, emergency));
    }

    method MintAll(credits: seq<Pool.Credit>) returns (r: Result<map<Key, U64>>)
      ensures r == CreditAll(balances, credits)
    {
      var tokens := balances;
      for i := 0 to |credits|
        invariant CreditAll(balances, credits) == CreditAll(tokens, credits[i..])
      {
        assert credits[i..][1..] == credits[i + 1..];
        tokens :- MintTo(tokens, credits[i].ata, credits[i].amount);
      }
      r := Ok(tokens);
    }

    /** The token part of `mint_energy`. */
    method MintEnergyReward(reward: U64, user: Key, enforced: bool) returns (r: Result<()>)
      modifies this
      ensures Commits(MintReward(old(Accounts()), reward, user, enforced), old(Accounts()), Accounts(), r)
    {
      var newSupply := supply + reward;
      :- Need(reward > 0, ZeroAmountMint);
      if enforced {
        :- Need(newSupply <= U64_MAX, ArithmeticOverflow);
        :- Need(newSupply <= maxSupply, SupplyLimitExceeded);
      }
      :- Need(newSupply <= U64_MAX, ArithmeticOverflow);
      var split :- Distributions(reward);
      var tokens :- MintAll([Pool.Credit(user, split.user), Pool.Credit(funds.buyback, split.buyback),
                             Pool.Credit(funds.staking, split.staking), Pool.Credit(funds.dao, split.dao),
                             Pool.Credit(funds.emergency, split.emergency)]);
      balances := tokens;
      supply := newSupply;
      r := Ok(());
    }

    method AllocateFounderPremine(account: Wallet, isFounder: bool) returns (r: Result<()>)
      modifies this
      ensures Commits(AllocateFounder(old(Accounts()), account, isFounder), old(Accounts()), Accounts(), r)
    {
      var newSupply := supply + FOUNDER_ALLOCATION;
      :- Need(isFounder, Unauthorized);
      :- Need(!founderMinted, FounderPremineAlreadyMinted);
      var locked := if founderAccount == NO_KEY then account else founderAccount;
      :- Need(locked == account, InvalidParameter);
      :- Need(newSupply <= U64_MAX, ArithmeticOverflow);
      :- Need(newSupply <= maxSupply, SupplyLimitExceeded);
      var tokens :- MintTo(balances, account, FOUNDER_ALLOCATION);
      balances := tokens;
      supply := newSupply;
      founderMinted := true;
      founderAccount := locked;
      r := Ok(());
    }

    method MintProposal(amount: U64, destination: Key) returns (r: Result<()>)
      modifies this
      ensures Commits(GovernanceMint(old(Accounts()), amount, destination), old(Accounts()), Accounts(), r)
    {
      var newSupply := supply + amount;
      :- Need(newSupply <= U64_MAX, ArithmeticOverflow);
      :- Need(newSupply <= maxSupply, SupplyLimitExceeded);
      var tokens :- MintTo(balances, destination, amount);
      balances := tokens;
      supply := newSupply;
      r := Ok(());
    }

    method Burn(amount: U64, isAuthority: bool) returns (r: Result<()>)
      modifies this
      ensures Commits(BuybackAndBurn(old(Accounts()), amount, isAuthority), old(Accounts()), Accounts(), r)
    {
      var known := funds.buyback in balances;
      :- Need(isAuthority, Unauthorized);
      :- Need(amount > 0, ZeroAmountMint);
      :- Need(known, AccountMissing);
      :- Need(amount <= balances[funds.buyback], InsufficientStake);
      :- Need(amount <= supply, ArithmeticOverflow);
      balances := balances[funds.buyback := balances[funds.buyback] - amount];
      supply := supply - amount;
      r := Ok(());
    }

    method Withdraw(fund: Fund, amount: U64, destination: Key, isAuthority: bool) returns (r: Result<()>)
      modifies this
      ensures Commits(WithdrawFund(old(Accounts()), fund, amount, destination, isAuthority), old(Accounts()), Accounts(), r)
    {
      var source := funds.Account(fund);
      :- Need(isAuthority, Unauthorized);
      :- Need(amount > 0, ZeroAmountMint);
      :- Need(source in balances, AccountMissing);
      :- Need(balances[source] >= amount, InsufficientStake);
      var tokens :- TransferTokens(balances, source, destination, amount);
      balances := tokens;
      r := Ok(());
    }

    method PayVote(reward: U64, ata: Key) returns (r: Result<()>)
      modifies this
      ensures Commits(PayOracle(old(Accounts()), reward, ata), old(Accounts()), Accounts(), r)
    {
      var tokens :- TransferTokens(balances, funds.staking, ata, reward);
      balances := tokens;
      r := Ok(());
    }
  }
}
