/** `mint_energy` and the policy engine: the instruction that moves the device records, the oracle
    quorum, the energy windows, the pools and the token ledger together, and what follows for the
    whole protocol. */
module EnergyMint {
  import opened Arithmetic
  import opened Protocol
  import D = Devices
  import E = Emission
  import P = Pool
  import Q = OracleQuorum
  import T = Tokens
  import W = EnergyWindow
  import MapSums

  const MAX_PROOF_AGE: nat := 900

  /** A verified report; the two signature checks are its last fields. */
  datatype Report = Report(
    oracle: Key, device: Key, nonce: U64, at: int, verifiedAt: int, energy: U64, deviceSigned: bool, oracleSigned: bool)

  /** `proof_hash`: the digest of the data the device signed. */
  function ProofHash(r: Report): Q.ProofHash {
    Q.Proof(r.device, r.nonce, r.at, r.energy)
  }

  // ------------------------------------------------------------- the policy engine

  datatype Policy = Policy(
    mintEnabled: bool, whitelist: bool, deviceState: bool, tierLimits: bool, energyCaps: bool, supplyCap: bool,
    maxEnergyBps: U64, maxClockSkew: nat)

  const DEFAULT_POLICY := Policy(true, true, true, true, true, true, 10_000, MAX_CLOCK_SKEW)

  /** The bounds of `update_policy`. */
  predicate Sane(policy: Policy) {
    0 < policy.maxEnergyBps <= 1_000_000 && policy.maxClockSkew <= 3600
  }

  function MonthlyLimit(tier: D.Tier): Option<U64> {
    match tier
    case Basic => Some(100_000)
    case Verified => Some(10_000_000)
    case _ => None
  }

  predicate WithinLimit(tier: D.Tier, energy: nat) {
    MonthlyLimit(tier).Some? ==> energy <= MonthlyLimit(tier).value
  }

  predicate AllowsIncrement(tier: D.Tier, month: U64, energy: U64) {
    WithinLimit(tier, month + energy)
  }

  predicate CanMint(p: D.Producer, now: Time) {
    && !p.revoked && p.state == D.Active
    && (MonthlyLimit(p.tier).Some? ==> D.RollMonth(p, now).monthEnergy < MonthlyLimit(p.tier).value)
  }

  /** `evaluate_preamble`, in its order. */
  function EvaluatePreamble(policy: Policy, p: D.Producer, r: Report, trusted: bool, ratedPower: U64, now: Time): Outcome {
    if !policy.mintEnabled then Fail(MintPaused)
    else if policy.whitelist && !trusted then Fail(UntrustedOracle)
    else if policy.deviceState && !CanMint(p, now) then Fail(InvalidDeviceState)
    else if r.verifiedAt > now + policy.maxClockSkew then Fail(FutureTimestamp)
    else if now - r.verifiedAt > MAX_PROOF_AGE then Fail(StaleProof)
    else if r.at > r.verifiedAt + policy.maxClockSkew then Fail(FutureTimestamp)
    else if r.verifiedAt - r.at > MAX_PROOF_AGE then Fail(StaleProof)
    else if policy.tierLimits && !AllowsIncrement(p.tier, p.monthEnergy, r.energy) then Fail(TierLimitExceeded)
    else if policy.energyCaps && ratedPower * policy.maxEnergyBps > U64_MAX then Fail(ArithmeticOverflow)
    else if policy.energyCaps && r.energy > ratedPower * policy.maxEnergyBps / 10_000 then Fail(ExcessiveEnergy)
    else Pass
  }

  // ------------------------------------------------------------- the accounts

  datatype Profile = Profile(ratedPower: U64, energy30d: U128, updatedAt: Time)

  datatype State = State(
    devices: D.State, quorum: Q.State, tokens: T.State, pools: map<Key, P.State>, profiles: map<Key, Profile>,
    networkEnergy: U128, networkAt: Time, totalProofs: U64, policy: Option<Policy>)

  function Initial(funds: T.Funds): State {
    State(D.Initial(), Q.Initial(), T.Initial(funds), map[], map[], 0, 0, 0, None)
  }

  /** The accounts and the report of one `mint_energy`. */
  datatype Request = Request(
    report: Report, producer: Key, submitter: Wallet, user: Key, userOwner: Key,
    attestationGiven: bool, policyGiven: bool, pool: Option<Key>, shareGiven: bool)

  /** The registry's policy, or the defaults where the optional account is left out. */
  function PolicyFor(s: State, m: Request): Policy {
    if m.policyGiven && s.policy.Some? then s.policy.value else DEFAULT_POLICY
  }

  /** The quorum gate: unavoidable, since the config account is mandatory. */
  function Gate(q: Q.State, r: Report, given: bool): Outcome {
    var key := Q.Report(r.device, r.nonce);
    if q.config.None? then Fail(AccountMissing)
    else if !q.config.value.required then Pass
    else if !given || key !in q.attestations then Fail(AttestationRequired)
    else if !q.attestations[key].finalized then Fail(AttestationNotFinalized)
    else if q.attestations[key].deviceId != r.device then Fail(DeviceMismatch)
    else if q.attestations[key].nonce != r.nonce then Fail(InvalidNonce)
    else if q.attestations[key].hash != ProofHash(r) then Fail(AttestationHashMismatch)
    else Pass
  }

  /** The account constraints and the verifier's own checks, up to the policy engine's. */
  function Verify(s: State, m: Request, now: Time): Outcome {
    var r := m.report;
    if m.producer !in s.devices.producers then Fail(AccountMissing)
    else
      var p := s.devices.producers[m.producer];
      if m.userOwner != p.authority then Fail(UnauthorizedTokenAccountOwner)
      else if p.authority !in s.profiles then Fail(AccountMissing)
      else if m.policyGiven && s.policy.None? then Fail(AccountMissing)
      else if p.revoked then Fail(DeviceRevoked)
      else if p.deviceId != r.device then Fail(DeviceMismatch)
      else if m.submitter != p.authority && m.submitter != r.oracle then Fail(NotProducerOwner)
      else if !r.deviceSigned || !r.oracleSigned then Fail(Ed25519VerificationFailed)
      else if r.nonce <= p.nonce then Fail(InvalidNonce)
      else
        var gate := Gate(s.quorum, r, m.attestationGiven);
        if gate.Fail? then gate
        else EvaluatePreamble(PolicyFor(s, m), D.RollMonth(p, now), r, r.oracle in s.quorum.oracles,
                              s.profiles[p.authority].ratedPower, now)
  }

  function NetworkAfter(s: State, energy: U64, now: Time): U128 {
    W.Accumulate(s.networkEnergy, s.networkAt, now, energy)
  }

  /** The reward: the device's share is read from the profile as it was before this report, cut to 64
      bits; the network's window already counts it. */
  function RewardFor(s: State, m: Request, now: Time): U64 {
    var owner := if m.producer in s.devices.producers then s.devices.producers[m.producer].authority else NO_KEY;
    var device := if owner in s.profiles then s.profiles[owner].energy30d % (U64_MAX + 1) else 0;
    E.CalculateRewardDynamic(m.report.energy, s.tokens.supply, device, NetworkAfter(s, m.report.energy, now))
  }

  /** The pool part: both pool accounts are given, or neither. */
  function Contributed(pools: map<Key, P.State>, m: Request): Result<map<Key, P.State>> {
    match (m.pool, m.shareGiven)
    case (Some(k), true) =>
      :- Need(k in pools, AccountMissing);
      var pool :- P.Contribute(pools[k], m.producer, m.report.energy);
      Ok(pools[k := pool])
    case (None, false) => Ok(pools)
    case _ => Err(InvalidParameter)
  }

  function MintEnergy(s: State, m: Request, now: Time): Result<State> {
    var verdict := Verify(s, m, now);
    :- verdict;
    Execute(s, m, now)
  }

  /** The new accounts of the device, the tokens and the pools. */
  datatype Moves = Moves(devices: D.State, tokens: T.State, pools: map<Key, P.State>)

  /** What can still fail once every check has passed. */
  function Prepare(s: State, m: Request, now: Time): Result<Moves> {
    var r := m.report;
    var devices :- D.Accept(s.devices, m.producer, r.nonce, r.energy, r.verifiedAt, now);
    var tokens :- T.MintReward(s.tokens, RewardFor(s, m, now), m.user, PolicyFor(s, m).supplyCap);
    :- Need(s.totalProofs < U64_MAX, ArithmeticOverflow);
    var pools :- Contributed(s.pools, m);
    Ok(Moves(devices, tokens, pools))
  }

  /** Both windows advanced and the proof counted, with the moves in place. */
  function Record(s: State, m: Request, now: Time, moves: Moves): State
    requires m.producer in s.devices.producers && s.devices.producers[m.producer].authority in s.profiles
    requires s.totalProofs < U64_MAX
  {
    var owner, energy := s.devices.producers[m.producer].authority, m.report.energy;
    var profile := s.profiles[owner];
    s.(devices := moves.devices, tokens := moves.tokens, pools := moves.pools,
       profiles := s.profiles[owner := profile.(energy30d := W.Slide(profile.energy30d, profile.updatedAt, now, energy), updatedAt := now)],
       networkEnergy := NetworkAfter(s, energy, now), networkAt := now, totalProofs := s.totalProofs + 1)
  }

  function Execute(s: State, m: Request, now: Time): Result<State>
    requires m.producer in s.devices.producers && s.devices.producers[m.producer].authority in s.profiles
  {
    var moves :- Prepare(s, m, now);
    Ok(Record(s, m, now, moves))
  }

  // ------------------------------------------------------------- the other instructions

  /** `claim_oracle_reward` in full: the vote is marked and the staking fund pays. */
  function ClaimReward(s: State, key: Q.VoteKey, ata: Key): Result<State> {
    var staking := s.tokens.funds.staking;
    :- Need(staking in s.tokens.balances, AccountMissing);
    var quorum :- Q.ClaimReward(s.quorum, key, s.tokens.balances[staking]);
    var reward := if s.quorum.config.Some? then s.quorum.config.value.rewardPerVote else 0;
    var tokens :- T.PayOracle(s.tokens, reward, ata);
    Ok(s.(quorum := quorum, tokens := tokens))
  }

  function Atas(groups: seq<P.Group>): (ks: seq<Key>)
    ensures |ks| == |groups| && forall i :: 0 <= i < |ks| ==> ks[i] == groups[i].ata
  {
    seq(|groups|, i requires 0 <= i < |groups| => groups[i].ata)
  }

  /** `distribute_pool` in full. */
  function DistributePool(s: State, k: Key, signer: Key, groups: seq<P.Group>, mint: Key): Result<State> {
    var known := k in s.pools;
    :- Need(known, AccountMissing);
    var pool := s.pools[k];
    var _ :- P.Plan(pool, P.Vault(s.tokens.supply, s.tokens.maxSupply), signer, groups, mint);
    var tokens :- T.DistributePool(s.tokens, Atas(groups), P.MembersOf(pool, groups), pool.totalEnergy);
    Ok(s.(tokens := tokens, pools := s.pools[k := pool.(totalEnergy := 0)]))
  }

  const MAX_RATED_POWER: U64 := 1_000_000

  /** `initialize_profile`, directly or through `init_energy_profile`, which passes 0. */
  function OpenProfile(s: State, owner: Key, ratedPower: U64, now: Time): Result<State> {
    var open := owner in s.profiles;
    :- Need(!open, AccountInUse);
    :- Need(ratedPower <= MAX_RATED_POWER, InvalidParameter);
    Ok(s.(profiles := s.profiles[owner := Profile(ratedPower, 0, now)]))
  }

  /** `update_metadata`: the rated power can be set once. */
  function SetRatedPower(s: State, owner: Key, ratedPower: U64): Result<State> {
    var known := owner in s.profiles;
    :- Need(known, AccountMissing);
    :- Need(ratedPower <= MAX_RATED_POWER, InvalidParameter);
    :- Need(s.profiles[owner].ratedPower == 0 || s.profiles[owner].ratedPower == ratedPower, InvalidParameter);
    Ok(s.(profiles := s.profiles[owner := s.profiles[owner].(ratedPower := ratedPower)]))
  }

  /** `record_production`, by which an owner records energy of its own accord at a time of its choice. */
  function RecordOwn(s: State, owner: Key, energy: U64, at: Time): Result<State> {
    var known := owner in s.profiles;
    :- Need(known, AccountMissing);
    var profile := s.profiles[owner];
    Ok(s.(profiles := s.profiles[owner := profile.(energy30d := W.Slide(profile.energy30d, profile.updatedAt, at, energy), updatedAt := at)]))
  }

  function UpdatePolicy(s: State, policy: Policy, isAuthority: bool): Result<State> {
    var sane := Sane(policy);
    :- Need(isAuthority, Unauthorized);
    :- Need(sane, InvalidParameter);
    Ok(s.(policy := Some(policy)))
  }

  function JoinPool(s: State, k: Key, producer: Key): Result<State> {
    var known := k in s.pools && producer in s.devices.producers;
    :- Need(known, AccountMissing);
    var pool :- P.Join(s.pools[k], producer);
    Ok(s.(pools := s.pools[k := pool]))
  }

  datatype Step =
    | DeviceStep(device: D.Step)        // everything but a mint
    | QuorumStep(quorum: Q.Step)        // everything but a claim
    | TokenStep(token: T.Step)          // everything but mints, claims and distributions
    | ClaimStep(key: Q.VoteKey, ata: Key)
    | DistributeStep(k: Key, signer: Key, groups: seq<P.Group>, mint: Key)
    | ProfileStep(owner: Key, ratedPower: U64, now: Time)
    | PowerStep(owner: Key, ratedPower: U64)
    | RecordStep(owner: Key, energy: U64, at: Time)
    | PolicyStep(policy: Policy, isAuthority: bool)
    | CreatePoolStep(k: Key, authority: Key, threshold: U64)
    | JoinPoolStep(k: Key, producer: Key)
    | MintStep(m: Request, now: Time)

  function Attempt(s: State, step: Step): Result<State> {
    match step
    case DeviceStep(d) =>
      :- Need(!d.AcceptStep?, InvalidParameter);
      var devices :- D.Attempt(s.devices, d);
      Ok(s.(devices := devices))
    case QuorumStep(q) =>
      :- Need(!q.ClaimStep?, InvalidParameter);
      var quorum :- Q.Attempt(s.quorum, q);
      Ok(s.(quorum := quorum))
    case TokenStep(t) =>
      :- Need(!t.MintStep? && !t.OracleStep? && !t.DistributeStep?, InvalidParameter);
      var tokens :- T.Attempt(s.tokens, t);
      Ok(s.(tokens := tokens))
    case ClaimStep(key, ata) => ClaimReward(s, key, ata)
    case DistributeStep(k, signer, groups, mint) => DistributePool(s, k, signer, groups, mint)
    case ProfileStep(owner, ratedPower, now) => OpenProfile(s, owner, ratedPower, now)
    case PowerStep(owner, ratedPower) => SetRatedPower(s, owner, ratedPower)
    case RecordStep(owner, energy, at) => RecordOwn(s, owner, energy, at)
    case PolicyStep(policy, isAuthority) => UpdatePolicy(s, policy, isAuthority)
    case CreatePoolStep(k, authority, threshold) =>
      :- Need(k !in s.pools, AccountInUse);
      Ok(s.(pools := s.pools[k := P.Create(k, authority, threshold)]))
    case JoinPoolStep(k, producer) => JoinPool(s, k, producer)
    case MintStep(m, now) => MintEnergy(s, m, now)
  }

  function Next(s: State, step: Step): State {
    Settle(Attempt(s, step), s)
  }

  function Run(funds: T.Funds, steps: seq<Step>): State {
    if steps == [] then Initial(funds) else Next(Run(funds, steps[..|steps| - 1]), steps[|steps| - 1])
  }

  // ------------------------------------------------------------- the parts are the machines

  /** What one successful step of the protocol is to the device machine. */
  function DevicePart(step: Step): Option<D.Step> {
    match step
    case DeviceStep(d) => Some(d)
    case MintStep(m, now) => Some(D.AcceptStep(m.producer, m.report.nonce, m.report.energy, m.report.verifiedAt, now))
    case _ => None
  }

  function StakingFund(s: State): U64 {
    if s.tokens.funds.staking in s.tokens.balances then s.tokens.balances[s.tokens.funds.staking] else 0
  }

  function RewardPerVote(s: State): U64 {
    if s.quorum.config.Some? then s.quorum.config.value.rewardPerVote else 0
  }

  function QuorumPart(s: State, step: Step): Option<Q.Step> {
    match step
    case QuorumStep(q) => Some(q)
    case ClaimStep(key, _) => Some(Q.ClaimStep(key, StakingFund(s)))
    case _ => None
  }

  function TokenPart(s: State, step: Step): Option<T.Step> {
    match step
    case TokenStep(t) => Some(t)
    case ClaimStep(_, ata) => Some(T.OracleStep(RewardPerVote(s), ata))
    case DistributeStep(k, _, groups, _) =>
      if k in s.pools then Some(T.DistributeStep(Atas(groups), P.MembersOf(s.pools[k], groups), s.pools[k].totalEnergy)) else None
    case MintStep(m, now) => Some(T.MintStep(RewardFor(s, m, now), m.user, PolicyFor(s, m).supplyCap))
    case _ => None
  }

  /** A part is taken only from a step that succeeds. */
  function Taken<S>(ok: bool, part: Option<S>): seq<S> {
    if ok && part.Some? then [part.value] else []
  }

  function DeviceTrace(funds: T.Funds, steps: seq<Step>): seq<D.Step> {
    if steps == [] then []
    else
      var before := steps[..|steps| - 1];
      var s := Run(funds, before);
      DeviceTrace(funds, before) + Taken(Attempt(s, steps[|before|]).Ok?, DevicePart(steps[|before|]))
  }

  function QuorumTrace(funds: T.Funds, steps: seq<Step>): seq<Q.Step> {
    if steps == [] then []
    else
      var before := steps[..|steps| - 1];
      var s := Run(funds, before);
      QuorumTrace(funds, before) + Taken(Attempt(s, steps[|before|]).Ok?, QuorumPart(s, steps[|before|]))
  }

  function TokenTrace(funds: T.Funds, steps: seq<Step>): seq<T.Step> {
    if steps == [] then []
    else
      var before := steps[..|steps| - 1];
      var s := Run(funds, before);
      TokenTrace(funds, before) + Taken(Attempt(s, steps[|before|]).Ok?, TokenPart(s, steps[|before|]))
  }

  lemma {:induction false} MintParts(s: State, m: Request, now: Time)
    requires MintEnergy(s, m, now).Ok?
    ensures var r := D.Accept(s.devices, m.producer, m.report.nonce, m.report.energy, m.report.verifiedAt, now);
            r.Ok? && MintEnergy(s, m, now).value.devices == r.value
    ensures var r := T.MintReward(s.tokens, RewardFor(s, m, now), m.user, PolicyFor(s, m).supplyCap);
            r.Ok? && MintEnergy(s, m, now).value.tokens == r.value
    ensures MintEnergy(s, m, now).value.quorum == s.quorum
  {
  }

  lemma {:induction false} OthersKeepDevices(s: State, step: Step)
    requires !step.DeviceStep? && !step.MintStep?
    ensures Next(s, step).devices == s.devices
  {
  }

  lemma {:induction false} PlainDeviceStep(s: State, d: D.Step)
    ensures var step := DeviceStep(d);
            Next(s, step).devices == if Attempt(s, step).Ok? then Settle(D.Attempt(s.devices, d), s.devices) else s.devices
  {
  }

  lemma {:induction false} MintDeviceStep(s: State, m: Request, now: Time)
    ensures Next(s, MintStep(m, now)).devices == if MintEnergy(s, m, now).Ok?
              then Settle(D.Accept(s.devices, m.producer, m.report.nonce, m.report.energy, m.report.verifiedAt, now), s.devices)
              else s.devices
  {
    if MintEnergy(s, m, now).Ok? {
      MintParts(s, m, now);
    }
  }

  lemma {:induction false} DeviceStepRefines(s: State, step: Step)
    ensures var part := DevicePart(step);
            Next(s, step).devices == if Attempt(s, step).Ok? && part.Some? then Settle(D.Attempt(s.devices, part.value), s.devices) else s.devices
  {
    if step.DeviceStep? {
      PlainDeviceStep(s, step.device);
    } else if step.MintStep? {
      MintDeviceStep(s, step.m, step.now);
    } else {
      OthersKeepDevices(s, step);
    }
  }

  lemma {:induction false} QuorumStepRefines(s: State, step: Step)
    ensures var part := QuorumPart(s, step);
            Next(s, step).quorum == if Attempt(s, step).Ok? && part.Some? then Q.Next(s.quorum, part.value) else s.quorum
  {
    match step
    case MintStep(m, now) => if MintEnergy(s, m, now).Ok? { MintParts(s, m, now); }
    case _ =>
  }

  lemma {:induction false} TokenStepRefines(s: State, step: Step)
    ensures var part := TokenPart(s, step);
            Next(s, step).tokens == if Attempt(s, step).Ok? && part.Some? then T.Next(s.tokens, part.value) else s.tokens
  {
    match step
    case MintStep(m, now) => if MintEnergy(s, m, now).Ok? { MintParts(s, m, now); }
    case _ =>
  }

  lemma {:induction false} DeviceExtend(s: D.State, t: D.State, trace: seq<D.Step>, ok: bool, part: Option<D.Step>)
    requires s == D.Run(trace)
    requires t == if ok && part.Some? then Settle(D.Attempt(s, part.value), s) else s
    ensures t == D.Run(trace + Taken(ok, part))
  {
    if ok && part.Some? {
      assert (trace + [part.value])[..|trace|] == trace;
    } else {
      assert trace + [] == trace;
    }
  }

  lemma {:induction false} QuorumExtend(s: Q.State, t: Q.State, trace: seq<Q.Step>, ok: bool, part: Option<Q.Step>)
    requires s == Q.Run(trace)
    requires t == if ok && part.Some? then Q.Next(s, part.value) else s
    ensures t == Q.Run(trace + Taken(ok, part))
  {
    if ok && part.Some? {
      assert (trace + [part.value])[..|trace|] == trace;
    } else {
      assert trace + [] == trace;
    }
  }

  lemma {:induction false} TokenExtend(funds: T.Funds, s: T.State, t: T.State, trace: seq<T.Step>, ok: bool, part: Option<T.Step>)
    requires s == T.Run(funds, trace)
    requires t == if ok && part.Some? then T.Next(s, part.value) else s
    ensures t == T.Run(funds, trace + Taken(ok, part))
  {
    if ok && part.Some? {
      assert (trace + [part.value])[..|trace|] == trace;
    } else {
      assert trace + [] == trace;
    }
  }

  /** Every run of the whole protocol, seen from the device records, is a run of the device machine. */
  lemma {:induction false} DevicesRefine(funds: T.Funds, steps: seq<Step>)
    ensures Run(funds, steps).devices == D.Run(DeviceTrace(funds, steps))
  {
    if steps == [] {
    } else {
      var before, step := steps[..|steps| - 1], steps[|steps| - 1];
      var s := Run(funds, before);
      DevicesRefine(funds, before);
      DeviceStepRefines(s, step);
      DeviceExtend(s.devices, Next(s, step).devices, DeviceTrace(funds, before), Attempt(s, step).Ok?, DevicePart(step));
    }
  }

  /** Seen from the oracles' accounts, it is a run of the quorum machine. */
  lemma {:induction false} QuorumRefines(funds: T.Funds, steps: seq<Step>)
    ensures Run(funds, steps).quorum == Q.Run(QuorumTrace(funds, steps))
  {
    if steps == [] {
    } else {
      var before, step := steps[..|steps| - 1], steps[|steps| - 1];
      var s := Run(funds, before);
      QuorumRefines(funds, before);
      QuorumStepRefines(s, step);
      QuorumExtend(s.quorum, Next(s, step).quorum, QuorumTrace(funds, before), Attempt(s, step).Ok?, QuorumPart(s, step));
    }
  }

  /** And seen from the token accounts, a run of the token machine. */
  lemma {:induction false} TokensRefine(funds: T.Funds, steps: seq<Step>)
    ensures Run(funds, steps).tokens == T.Run(funds, TokenTrace(funds, steps))
  {
    if steps == [] {
    } else {
      var before, step := steps[..|steps| - 1], steps[|steps| - 1];
      var s := Run(funds, before);
      TokensRefine(funds, before);
      TokenStepRefines(s, step);
      TokenExtend(funds, s.tokens, Next(s, step).tokens, TokenTrace(funds, before), Attempt(s, step).Ok?, TokenPart(s, step));
    }
  }

  /** What one successful step is to the pool `k`. */
  function PoolPart(s: State, step: Step, k: Key): Option<P.Step> {
    match step
    case JoinPoolStep(pool, producer) => if pool == k then Some(P.JoinStep(producer)) else None
    case DistributeStep(pool, signer, groups, mint) =>
      if pool == k then Some(P.DistributeStep(P.Vault(s.tokens.supply, s.tokens.maxSupply), signer, groups, mint)) else None
    case MintStep(m, now) => if m.pool == Some(k) then Some(P.ContributeStep(m.producer, m.report.energy)) else None
    case _ => None
  }

  lemma {:induction false} MintPool(s: State, m: Request, now: Time, k: Key)
    requires MintEnergy(s, m, now).Ok? && k in s.pools
    ensures var t := MintEnergy(s, m, now).value;
            && k in t.pools && t.pools[k] == if m.pool == Some(k) then P.Next(s.pools[k], P.ContributeStep(m.producer, m.report.energy))
                                             else s.pools[k]
  {
  }

  lemma {:induction false} DistributedPool(s: State, pool: Key, signer: Key, groups: seq<P.Group>, mint: Key, k: Key)
    requires DistributePool(s, pool, signer, groups, mint).Ok? && k in s.pools
    ensures var t := DistributePool(s, pool, signer, groups, mint).value;
            && k in t.pools && t.pools[k] == if pool == k
                 then P.Next(s.pools[k], P.DistributeStep(P.Vault(s.tokens.supply, s.tokens.maxSupply), signer, groups, mint))
                 else s.pools[k]
  {
  }

  lemma {:induction false} PoolStepRefines(s: State, step: Step, k: Key)
    requires k in s.pools
    ensures k in Next(s, step).pools
    ensures var part := PoolPart(s, step, k);
            Next(s, step).pools[k] == if Attempt(s, step).Ok? && part.Some? then P.Next(s.pools[k], part.value) else s.pools[k]
  {
    if Attempt(s, step).Ok? {
      match step
      case MintStep(m, now) => MintPool(s, m, now, k);
      case DistributeStep(pool, signer, groups, mint) => DistributedPool(s, pool, signer, groups, mint, k);
      case _ =>
    }
  }

  /** The steps of the pool `k` since it was created, and none before. */
  function PoolTrace(funds: T.Funds, steps: seq<Step>, k: Key): seq<P.Step> {
    if steps == [] then []
    else
      var before := steps[..|steps| - 1];
      var s := Run(funds, before);
      PoolTrace(funds, before, k) + Taken(k in s.pools && Attempt(s, steps[|before|]).Ok?, PoolPart(s, steps[|before|], k))
  }

  /** The pool as its creation left it; where there is none, an empty one. */
  function PoolStart(funds: T.Funds, steps: seq<Step>, k: Key): P.State {
    if steps == [] then P.Create(k, NO_KEY, 0)
    else
      var before, step := steps[..|steps| - 1], steps[|steps| - 1];
      if step.CreatePoolStep? && step.k == k && Attempt(Run(funds, before), step).Ok? then P.Create(k, step.authority, step.threshold)
      else PoolStart(funds, before, k)
  }

  ghost predicate PoolOk(s: State, k: Key, start: P.State, trace: seq<P.Step>) {
    if k in s.pools then s.pools[k] == P.Run(start, trace) else trace == []
  }

  lemma {:induction false} PoolKeeps(s: State, step: Step, k: Key, start: P.State, trace: seq<P.Step>)
    requires k in s.pools && s.pools[k] == P.Run(start, trace)
    ensures PoolOk(Next(s, step), k, start, trace + Taken(Attempt(s, step).Ok?, PoolPart(s, step, k)))
  {
    PoolStepRefines(s, step, k);
    var part := PoolPart(s, step, k);
    if Attempt(s, step).Ok? && part.Some? {
      P.RunSnoc(start, trace, part.value);
    } else {
      assert trace + [] == trace;
    }
  }

  lemma {:induction false} PoolAppears(s: State, step: Step, k: Key, start: P.State)
    requires k !in s.pools
    ensures PoolOk(Next(s, step), k,
              if step.CreatePoolStep? && step.k == k && Attempt(s, step).Ok? then P.Create(k, step.authority, step.threshold) else start, [])
  {
  }

  lemma {:induction false} OnlyOnce(s: State, step: Step, k: Key)
    requires k in s.pools && step.CreatePoolStep? && step.k == k
    ensures Attempt(s, step).Err?
  {
  }

  /** And seen from a pool, it is a run of that pool's machine, from its creation on. */
  lemma {:induction false} PoolsRefine(funds: T.Funds, steps: seq<Step>, k: Key)
    ensures PoolOk(Run(funds, steps), k, PoolStart(funds, steps, k), PoolTrace(funds, steps, k))
  {
    if steps == [] {
    } else {
      var before, step := steps[..|steps| - 1], steps[|steps| - 1];
      var s := Run(funds, before);
      PoolsRefine(funds, before, k);
      if k in s.pools {
        PoolKeeps(s, step, k, PoolStart(funds, before, k), PoolTrace(funds, before, k));
        if step.CreatePoolStep? && step.k == k {
          OnlyOnce(s, step, k);
        }
      } else {
        PoolAppears(s, step, k, PoolStart(funds, before, k));
      }
    }
  }

  // ------------------------------------------------------------- what follows for the protocol

  predicate Required(q: Q.State) {
    q.config.Some? && q.config.value.required
  }

  lemma {:induction false} GateOpens(q: Q.State, r: Report, given: bool)
    requires Gate(q, r, given) == Pass && q.config.Some? && q.config.value.required
    ensures var key := Q.Report(r.device, r.nonce);
            key in q.attestations && q.attestations[key].finalized && q.attestations[key].hash == ProofHash(r)
  {
  }

  lemma {:induction false} OpenGateIsBacked(steps: seq<Q.Step>, r: Report, given: bool)
    requires Gate(Q.Run(steps), r, given) == Pass && Required(Q.Run(steps))
    ensures Q.Backed(steps, Q.Report(r.device, r.nonce), ProofHash(r))
  {
    GateOpens(Q.Run(steps), r, given);
    Q.FinalizedIsBacked(steps, Q.Report(r.device, r.nonce));
  }

  lemma {:induction false} MintPassedGate(s: State, m: Request, now: Time)
    requires MintEnergy(s, m, now).Ok?
    ensures Gate(s.quorum, m.report, m.attestationGiven) == Pass
  {
  }

  /** While the quorum is required, a mint succeeds only if two distinct oracles, each registered, staked
      and unslashed at the time, voted for exactly this report's data: device, nonce, time and energy. */
  lemma {:induction false} RequiredMintIsBacked(funds: T.Funds, steps: seq<Step>, m: Request, now: Time)
    requires MintEnergy(Run(funds, steps), m, now).Ok? && Required(Run(funds, steps).quorum)
    ensures Q.Backed(QuorumTrace(funds, steps), Q.Report(m.report.device, m.report.nonce), ProofHash(m.report))
  {
    MintPassedGate(Run(funds, steps), m, now);
    QuorumRefines(funds, steps);
    OpenGateIsBacked(QuorumTrace(funds, steps), m.report, m.attestationGiven);
  }

  lemma {:induction false} HashStep(s: State, step: Step, key: Q.Report)
    requires key in s.quorum.attestations && 1 <= s.quorum.attestations[key].votes
    ensures key in Next(s, step).quorum.attestations
    ensures Next(s, step).quorum.attestations[key].hash == s.quorum.attestations[key].hash
  {
    QuorumStepRefines(s, step);
    var part := QuorumPart(s, step);
    if part.Some? {
      Q.FinalStep(s.quorum, part.value, key);
    }
  }

  lemma {:induction false} QuorumKeeps(funds: T.Funds, steps: seq<Step>)
    ensures Q.Inv(Run(funds, steps).quorum)
  {
    QuorumRefines(funds, steps);
    Q.RunKeeps(QuorumTrace(funds, steps));
  }

  /** The hash the first vote gave an attestation stands over every continuation. */
  lemma {:induction false} HashStands(funds: T.Funds, before: seq<Step>, after: seq<Step>, key: Q.Report)
    requires key in Run(funds, before).quorum.attestations
    ensures key in Run(funds, before + after).quorum.attestations
    ensures Run(funds, before + after).quorum.attestations[key].hash == Run(funds, before).quorum.attestations[key].hash
    decreases |after|
  {
    if after == [] {
      assert before + after == before;
    } else {
      var shorter, step := before + after[..|after| - 1], after[|after| - 1];
      var s := Run(funds, shorter);
      HashStands(funds, before, after[..|after| - 1], key);
      QuorumKeeps(funds, shorter);
      assert Q.AttestationOk(s.quorum, key);
      HashStep(s, step, key);
      assert (before + after)[..|before + after| - 1] == shorter;
    }
  }

  /** While the quorum is required, a report can be minted only for the data of its attestation's first vote:
      once that vote gave another hash, no continuation ever admits the report. */
  lemma {:induction false} ForeignFirstVoteBlocks(funds: T.Funds, before: seq<Step>, after: seq<Step>, m: Request, now: Time)
    requires var key := Q.Report(m.report.device, m.report.nonce);
             key in Run(funds, before).quorum.attestations
             && Run(funds, before).quorum.attestations[key].hash != ProofHash(m.report)
    requires Required(Run(funds, before + after).quorum)
    ensures MintEnergy(Run(funds, before + after), m, now).Err?
  {
    var s := Run(funds, before + after);
    HashStands(funds, before, after, Q.Report(m.report.device, m.report.nonce));
    if MintEnergy(s, m, now).Ok? {
      MintPassedGate(s, m, now);
      GateOpens(s.quorum, m.report, m.attestationGiven);
    }
  }

  /** The vault's energy total is the energy of the live records, over every run of the protocol. */
  lemma {:induction false} EnergyIsAccountedFor(funds: T.Funds, steps: seq<Step>)
    ensures var d := Run(funds, steps).devices; d.totalEnergy == MapSums.Sum(d.producers, D.LiveEnergy) == D.LogEnergy(d.log)
  {
    DevicesRefine(funds, steps);
    D.EnergyConserved(DeviceTrace(funds, steps));
  }

  /** And the vault's supply is the sum of all token balances. */
  lemma {:induction false} SupplyIsAccountedFor(funds: T.Funds, steps: seq<Step>)
    ensures var t := Run(funds, steps).tokens; t.supply == T.Circulating(t.balances)
  {
    TokensRefine(funds, steps);
    T.SupplyIsBalances(funds, TokenTrace(funds, steps));
  }

  /** Every mint of the run was judged with the supply cap on. */
  ghost predicate CapOn(funds: T.Funds, steps: seq<Step>) {
    steps != [] ==>
      var before, step := steps[..|steps| - 1], steps[|steps| - 1];
      CapOn(funds, before) && (step.MintStep? ==> PolicyFor(Run(funds, before), step.m).supplyCap)
  }

  lemma {:induction false} CapOnTrace(funds: T.Funds, steps: seq<Step>)
    requires CapOn(funds, steps)
    ensures T.CapOn(TokenTrace(funds, steps))
  {
    if steps == [] {
    } else {
      var before, step := steps[..|steps| - 1], steps[|steps| - 1];
      CapOnTrace(funds, before);
      if Attempt(Run(funds, before), step).Ok? {
        CapOnPart(Run(funds, before), step);
      }
    }
  }

  lemma {:induction false} CapOnPart(s: State, step: Step)
    requires Attempt(s, step).Ok? && (step.MintStep? ==> PolicyFor(s, step.m).supplyCap)
    ensures TokenPart(s, step).Some? && TokenPart(s, step).value.MintStep? ==> TokenPart(s, step).value.enforced
  {
  }

  /** What `mint_energy` has rewarded over a run. */
  function Rewards(funds: T.Funds, steps: seq<Step>): nat {
    if steps == [] then 0
    else
      var before, step := steps[..|steps| - 1], steps[|steps| - 1];
      var s := Run(funds, before);
      Rewards(funds, before) + if step.MintStep? && Attempt(s, step).Ok? then RewardFor(s, step.m, step.now) else 0
  }

  lemma {:induction false} MintAddsEnergy(s: State, m: Request, now: Time)
    requires MintEnergy(s, m, now).Ok?
    ensures MintEnergy(s, m, now).value.devices.totalEnergy == s.devices.totalEnergy + m.report.energy
  {
    MintParts(s, m, now);
  }

  lemma {:induction false} OthersAddNoEnergy(s: State, step: Step)
    requires !step.MintStep?
    ensures Next(s, step).devices.totalEnergy == s.devices.totalEnergy
  {
    match step
    case DeviceStep(d) => if !d.AcceptStep? { D.OthersLogNothing(s.devices, d); }
    case _ => OthersKeepDevices(s, step);
  }

  /** The supply is within the cap wherever a mint of the run succeeds. */
  ghost predicate MintsWithinCap(funds: T.Funds, steps: seq<Step>) {
    steps != [] ==>
      var before, step := steps[..|steps| - 1], steps[|steps| - 1];
      var s := Run(funds, before);
      MintsWithinCap(funds, before) && (step.MintStep? && Attempt(s, step).Ok? ==> s.tokens.supply <= E.MAX_SUPPLY_ATOMIC)
  }

  /** What the last step rewards, against the energy it adds. */
  lemma {:induction false} RewardStep(s: State, step: Step)
    requires step.MintStep? && Attempt(s, step).Ok? ==> s.tokens.supply <= E.MAX_SUPPLY_ATOMIC
    ensures (if step.MintStep? && Attempt(s, step).Ok? then RewardFor(s, step.m, step.now) else 0)
         <= 1000 * (Next(s, step).devices.totalEnergy - s.devices.totalEnergy)
  {
    if step.MintStep? {
      if MintEnergy(s, step.m, step.now).Ok? {
        RewardWithin(s, step.m, step.now);
        MintAddsEnergy(s, step.m, step.now);
      }
    } else {
      OthersAddNoEnergy(s, step);
    }
  }

  lemma {:induction false} SupplyStaysWithinCap(funds: T.Funds, steps: seq<Step>)
    requires CapOn(funds, steps)
    ensures Run(funds, steps).tokens.supply <= E.MAX_SUPPLY_ATOMIC
  {
    TokensRefine(funds, steps);
    CapOnTrace(funds, steps);
    T.SupplyWithinCap(funds, TokenTrace(funds, steps));
  }

  /** Over any run whose mints all start within the supply cap, however its switch stood, rewards total at
      most 1000 atomics for each watt-hour in the vault's energy total. */
  lemma {:induction false} RewardsPerWattHour(funds: T.Funds, steps: seq<Step>)
    requires MintsWithinCap(funds, steps)
    ensures Rewards(funds, steps) <= 1000 * Run(funds, steps).devices.totalEnergy
  {
    if steps == [] {
    } else {
      var before, step := steps[..|steps| - 1], steps[|steps| - 1];
      RewardsPerWattHour(funds, before);
      RewardStep(Run(funds, before), step);
    }
  }

  /** The cap's switch keeps every mint there. */
  lemma {:induction false} SwitchKeepsWithinCap(funds: T.Funds, steps: seq<Step>)
    requires CapOn(funds, steps)
    ensures MintsWithinCap(funds, steps)
    ensures Rewards(funds, steps) <= 1000 * Run(funds, steps).devices.totalEnergy
  {
    if steps == [] {
    } else {
      SwitchKeepsWithinCap(funds, steps[..|steps| - 1]);
      SupplyStaysWithinCap(funds, steps[..|steps| - 1]);
    }
    RewardsPerWattHour(funds, steps);
  }

  lemma {:induction false} RewardWithin(s: State, m: Request, now: Time)
    requires s.tokens.supply <= E.MAX_SUPPLY_ATOMIC
    ensures RewardFor(s, m, now) <= 1000 * m.report.energy
  {
    var owner := if m.producer in s.devices.producers then s.devices.producers[m.producer].authority else NO_KEY;
    var device := if owner in s.profiles then s.profiles[owner].energy30d % (U64_MAX + 1) else 0;
    E.RewardPerWh(m.report.energy, s.tokens.supply, device, NetworkAfter(s, m.report.energy, now));
  }

  // ------------------------------------------------------------- what a mint pays

  /** The device's window as the formula reads it: the owner's profile before the report, cut to 64 bits. */
  function DeviceWindow(s: State, m: Request): U64
    requires m.producer in s.devices.producers && s.devices.producers[m.producer].authority in s.profiles
  {
    s.profiles[s.devices.producers[m.producer].authority].energy30d % 0x1_0000_0000_0000_0000
  }

  /** The network's window with the report in it. */
  function NetworkWindow(s: State, m: Request, now: Time): U128 {
    if s.networkAt == 0 || s.networkAt + 2_592_000 <= now then m.report.energy
    else Min(s.networkEnergy + m.report.energy, U128_MAX)
  }

  /** Every mint pays what the report's energy buys at the supply's price times the multiplier of the owner's old
      window in the network's new one, cut to 64 bits, and uncut where it fits. */
  lemma {:induction false} RewardBuys(s: State, m: Request, now: Time) returns (price: nat, exact: nat)
    requires s.tokens.supply <= 1_000_000_000_000_000_000
    requires m.producer in s.devices.producers && s.devices.producers[m.producer].authority in s.profiles
    ensures 1_000_000 <= price && E.PriceOf(price, s.tokens.supply, DeviceWindow(s, m), NetworkWindow(s, m, now))
    ensures E.Buys(exact, m.report.energy, price)
    ensures RewardFor(s, m, now) == exact % 0x1_0000_0000_0000_0000
    ensures exact <= 0xFFFF_FFFF_FFFF_FFFF ==> RewardFor(s, m, now) == exact
  {
    W.AccumulateIs(s.networkEnergy, s.networkAt, now, m.report.energy);
    price, exact := E.DynamicRewardBuys(m.report.energy, s.tokens.supply, DeviceWindow(s, m), NetworkWindow(s, m, now));
  }

  /** A successful mint adds its reward to the supply, its energy to the vault's total, and one to the proofs. */
  lemma {:induction false} MintAdds(s: State, m: Request, now: Time)
    requires MintEnergy(s, m, now).Ok?
    ensures var t := MintEnergy(s, m, now).value;
            && t.tokens.supply == s.tokens.supply + RewardFor(s, m, now) && t.totalProofs == s.totalProofs + 1
            && t.devices.totalEnergy == s.devices.totalEnergy + m.report.energy && t.policy == s.policy
  {
    MintParts(s, m, now);
  }

  /** A claimed reward moves the configuration's reward from the staking fund to the oracle's account, and marks
      the vote. */
  lemma {:induction false} ClaimMoves(s: State, key: Q.VoteKey, ata: Key)
    requires T.Inv(s.tokens) && ClaimReward(s, key, ata).Ok?
    ensures var t := ClaimReward(s, key, ata).value;
            && s.quorum.config.Some? && key in s.quorum.votes && !s.quorum.votes[key].rewardClaimed
            && T.MovedOnly(s.tokens.balances, t.tokens.balances, Some(s.tokens.funds.staking), Some(ata), s.quorum.config.value.rewardPerVote)
            && t == s.(tokens := s.tokens.(balances := t.tokens.balances),
                       quorum := s.quorum.(votes := s.quorum.votes[key := s.quorum.votes[key].(rewardClaimed := true)]))
  {
    T.PayOracleIs(s.tokens, s.quorum.config.value.rewardPerVote, ata);
  }

  /** A pool distribution pays into every account exactly the credits the pool's split addresses to it, and empties
      the pool. */
  lemma {:induction false} DistributionCredits(s: State, k: Key, signer: Key, groups: seq<P.Group>, mint: Key, account: Key)
    requires DistributePool(s, k, signer, groups, mint).Ok? && account in s.tokens.balances
    ensures var t := DistributePool(s, k, signer, groups, mint).value;
            && k in s.pools
            && var d := P.Distribute(s.pools[k], P.Vault(s.tokens.supply, s.tokens.maxSupply), signer, groups, mint);
               && d.Ok? && t.tokens.supply == d.value.vault.supply && t.pools == s.pools[k := d.value.state]
               && account in t.tokens.balances
               && t.tokens.balances[account] == s.tokens.balances[account] + T.Received(d.value.credits, account)
  {
    var pool := s.pools[k];
    var total := E.CalculateReward(Min(pool.totalEnergy, U64_MAX), s.tokens.supply);
    var payouts := P.Payouts(total, P.WeightsOf(pool, groups));
    T.DistributionPays(s.tokens, Atas(groups), P.MembersOf(pool, groups), pool.totalEnergy, account);
    assert T.PoolCredits(Atas(groups), payouts) == P.Credits(groups, payouts);
  }

  // ------------------------------------------------------------- the windows over a run

  /** The reports minted over a run, oldest first. */
  function Recorded(funds: T.Funds, steps: seq<Step>): seq<W.Record> {
    if steps == [] then []
    else
      var before, step := steps[..|steps| - 1], steps[|steps| - 1];
      Recorded(funds, before)
        + if step.MintStep? && Attempt(Run(funds, before), step).Ok? then [W.Record(step.now, step.m.report.energy)] else []
  }

  lemma {:induction false} MintRecords(s: State, m: Request, now: Time)
    requires MintEnergy(s, m, now).Ok?
    ensures var t := MintEnergy(s, m, now).value;
            && t.networkEnergy == W.Accumulate(s.networkEnergy, s.networkAt, now, m.report.energy) && t.networkAt == now
            && m.producer in s.devices.producers
            && var owner := s.devices.producers[m.producer].authority;
               && owner in s.profiles
               && t.profiles == s.profiles[owner := Profile(s.profiles[owner].ratedPower,
                    W.Slide(s.profiles[owner].energy30d, s.profiles[owner].updatedAt, now, m.report.energy), now)]
  {
  }

  lemma {:induction false} OthersKeepNetwork(s: State, step: Step)
    requires !step.MintStep?
    ensures Next(s, step).networkEnergy == s.networkEnergy && Next(s, step).networkAt == s.networkAt
    ensures Next(s, step).totalProofs == s.totalProofs
  {
  }

  /** The network's account holds the window of the records, and the vault their number. */
  ghost predicate NetworkOk(s: State, records: seq<W.Record>) {
    s.networkEnergy == W.NetworkWindow(0, 0, records) && s.networkAt == W.LastTime(0, records) && s.totalProofs == |records|
  }

  lemma {:induction false} MintNetwork(s: State, m: Request, now: Time, records: seq<W.Record>)
    requires MintEnergy(s, m, now).Ok? && NetworkOk(s, records)
    ensures NetworkOk(MintEnergy(s, m, now).value, records + [W.Record(now, m.report.energy)])
  {
    MintRecords(s, m, now);
    MintAdds(s, m, now);
    W.NetworkSnoc(0, 0, records, W.Record(now, m.report.energy));
  }

  lemma {:induction false} NetworkStep(s: State, step: Step, records: seq<W.Record>)
    requires NetworkOk(s, records)
    ensures NetworkOk(Next(s, step),
              records + if step.MintStep? && Attempt(s, step).Ok? then [W.Record(step.now, step.m.report.energy)] else [])
  {
    assert records + [] == records;
    if !step.MintStep? {
      OthersKeepNetwork(s, step);
    } else if MintEnergy(s, step.m, step.now).Ok? {
      MintNetwork(s, step.m, step.now, records);
    }
  }

  /** The network's window is the window of exactly the reports minted, and their number is the proof count. */
  lemma {:induction false} NetworkIsRecorded(funds: T.Funds, steps: seq<Step>)
    ensures NetworkOk(Run(funds, steps), Recorded(funds, steps))
  {
    if steps == [] {
    } else {
      NetworkIsRecorded(funds, steps[..|steps| - 1]);
      NetworkStep(Run(funds, steps[..|steps| - 1]), steps[|steps| - 1], Recorded(funds, steps[..|steps| - 1]));
    }
  }

  /** What one successful step records into an owner's profile: a minted report of its devices, or energy of its
      own accord. */
  function OwnerPart(s: State, step: Step, owner: Key): seq<W.Record> {
    match step
    case MintStep(m, now) =>
      if m.producer in s.devices.producers && s.devices.producers[m.producer].authority == owner
      then [W.Record(now, m.report.energy)] else []
    case RecordStep(o, energy, at) => if o == owner then [W.Record(at, energy)] else []
    case _ => []
  }

  function RecordedBy(funds: T.Funds, steps: seq<Step>, owner: Key): seq<W.Record> {
    if steps == [] then []
    else
      var before, step := steps[..|steps| - 1], steps[|steps| - 1];
      var s := Run(funds, before);
      RecordedBy(funds, before, owner) + if Attempt(s, step).Ok? then OwnerPart(s, step, owner) else []
  }

  /** When the owner's profile was opened; 0 before it is. */
  function OpenedAt(funds: T.Funds, steps: seq<Step>, owner: Key): Time {
    if steps == [] then 0
    else
      var before, step := steps[..|steps| - 1], steps[|steps| - 1];
      if step.ProfileStep? && step.owner == owner && Attempt(Run(funds, before), step).Ok? then step.now
      else OpenedAt(funds, before, owner)
  }

  /** The owner's profile follows the record list and the opening time; without one nothing is recorded. */
  ghost predicate ProfileOk(s: State, owner: Key, since: Time, records: seq<W.Record>) {
    if owner !in s.profiles then records == []
    else s.profiles[owner].energy30d == W.Window(0, since, records) && s.profiles[owner].updatedAt == W.LastTime(since, records)
  }

  lemma {:induction false} MintProfile(s: State, m: Request, now: Time, owner: Key, since: Time, records: seq<W.Record>)
    requires MintEnergy(s, m, now).Ok? && ProfileOk(s, owner, since, records)
    ensures ProfileOk(MintEnergy(s, m, now).value, owner, since, records + OwnerPart(s, MintStep(m, now), owner))
  {
    MintRecords(s, m, now);
    W.WindowSnoc(0, since, records, W.Record(now, m.report.energy));
    assert records + [] == records;
  }

  lemma {:induction false} OwnProfile(s: State, step: Step, owner: Key, since: Time, records: seq<W.Record>)
    requires step.RecordStep? && RecordOwn(s, step.owner, step.energy, step.at).Ok? && ProfileOk(s, owner, since, records)
    ensures ProfileOk(RecordOwn(s, step.owner, step.energy, step.at).value, owner, since, records + OwnerPart(s, step, owner))
  {
    W.WindowSnoc(0, since, records, W.Record(step.at, step.energy));
    assert records + [] == records;
  }

  lemma {:induction false} OtherProfile(s: State, step: Step, owner: Key, since: Time, records: seq<W.Record>)
    requires !step.MintStep? && !step.RecordStep? && Attempt(s, step).Ok? && ProfileOk(s, owner, since, records)
    ensures ProfileOk(Attempt(s, step).value, owner,
                      if step.ProfileStep? && step.owner == owner then step.now else since, records)
  {
  }

  /** Every owner's window is the window, since its profile was opened, of exactly its devices' minted reports and
      what it recorded itself. */
  lemma {:induction false} ProfileIsRecorded(funds: T.Funds, steps: seq<Step>, owner: Key)
    ensures ProfileOk(Run(funds, steps), owner, OpenedAt(funds, steps, owner), RecordedBy(funds, steps, owner))
  {
    if steps == [] {
    } else {
      var before, step := steps[..|steps| - 1], steps[|steps| - 1];
      var s, since, records := Run(funds, before), OpenedAt(funds, before, owner), RecordedBy(funds, before, owner);
      ProfileIsRecorded(funds, before, owner);
      assert records + [] == records;
      if Attempt(s, step).Ok? {
        match step
        case MintStep(m, now) => MintProfile(s, m, now, owner, since, records);
        case RecordStep(_, _, _) => OwnProfile(s, step, owner, since, records);
        case _ => OtherProfile(s, step, owner, since, records);
      }
    }
  }

  // ------------------------------------------------------------- monthly limits

  /** The month's energy of every record is within its tier's limit. */
  ghost predicate WithinTier(d: D.State) {
    forall k :: k in d.producers ==> WithinLimit(d.producers[k].tier, d.producers[k].monthEnergy)
  }

  /** Every mint of the run was judged with the tier limits on. */
  ghost predicate TiersOn(funds: T.Funds, steps: seq<Step>) {
    steps != [] ==>
      var before, step := steps[..|steps| - 1], steps[|steps| - 1];
      TiersOn(funds, before) && (step.MintStep? ==> PolicyFor(Run(funds, before), step.m).tierLimits)
  }

  lemma {:induction false} DevicesStayWithinTier(s: D.State, step: D.Step)
    requires WithinTier(s) && !step.AcceptStep?
    ensures WithinTier(Settle(D.Attempt(s, step), s))
  {
  }

  lemma {:induction false} MintAllowed(s: State, m: Request, now: Time)
    requires MintEnergy(s, m, now).Ok? && PolicyFor(s, m).tierLimits
    ensures m.producer in s.devices.producers
    ensures var p := D.RollMonth(s.devices.producers[m.producer], now); AllowsIncrement(p.tier, p.monthEnergy, m.report.energy)
  {
  }

  lemma {:induction false} AcceptStaysWithinTier(s: D.State, device: Key, nonce: U64, energy: U64, verifiedAt: int, now: Time)
    requires WithinTier(s) && device in s.producers
    requires var p := D.RollMonth(s.producers[device], now); AllowsIncrement(p.tier, p.monthEnergy, energy)
    ensures WithinTier(Settle(D.Accept(s, device, nonce, energy, verifiedAt, now), s))
  {
  }

  lemma {:induction false} MonthStep(s: State, step: Step)
    requires WithinTier(s.devices) && (step.MintStep? ==> PolicyFor(s, step.m).tierLimits)
    ensures WithinTier(Next(s, step).devices)
  {
    match step
    case DeviceStep(d) => if !d.AcceptStep? { DevicesStayWithinTier(s.devices, d); }
    case MintStep(m, now) =>
      if MintEnergy(s, m, now).Ok? {
        MintAllowed(s, m, now);
        MintParts(s, m, now);
        AcceptStaysWithinTier(s.devices, m.producer, m.report.nonce, m.report.energy, m.report.verifiedAt, now);
      }
    case _ => OthersKeepDevices(s, step);
  }

  lemma {:induction false} RecordsStayWithinTier(funds: T.Funds, steps: seq<Step>)
    requires TiersOn(funds, steps)
    ensures WithinTier(Run(funds, steps).devices)
  {
    if steps == [] {
    } else {
      RecordsStayWithinTier(funds, steps[..|steps| - 1]);
      MonthStep(Run(funds, steps[..|steps| - 1]), steps[|steps| - 1]);
    }
  }

  /** A live record of a run of the protocol. */
  ghost predicate LiveRecord(d: D.State, k: Key) {
    k in d.producers && k in d.marks && d.producers[k].Live()
  }

  /** What was accepted along a device's whole chain of keys since its month began stays within its tier's
      limit: rotating the key opens no new allowance. */
  lemma {:induction false} MonthWithinTier(funds: T.Funds, steps: seq<Step>, k: Key)
    requires TiersOn(funds, steps) && LiveRecord(Run(funds, steps).devices, k)
    ensures var d := Run(funds, steps).devices;
            (d.producers[k].tier == D.Basic ==> D.ChainMonth(d, k) <= 100_000)
            && (d.producers[k].tier == D.Verified ==> D.ChainMonth(d, k) <= 10_000_000)
  {
    RecordsStayWithinTier(funds, steps);
    DevicesRefine(funds, steps);
    D.MonthIsTheChains(DeviceTrace(funds, steps), k);
  }

  /** With a clock that runs forward, and no tier of the chain set, so does all that was accepted along the
      chain at or after the month's start. */
  lemma {:induction false} SinceStartWithinTier(funds: T.Funds, steps: seq<Step>, k: Key)
    requires TiersOn(funds, steps) && LiveRecord(Run(funds, steps).devices, k)
    requires Run(funds, steps).devices.producers[k].monthStart != 0
    requires var trace := DeviceTrace(funds, steps);
             D.Forward(trace) && D.KeepsTiers(trace, Run(funds, steps).devices.marks[k].chain)
    ensures var d := Run(funds, steps).devices;
            (d.producers[k].tier == D.Basic ==> D.ChainSince(d, k, d.producers[k].monthStart) <= 100_000)
            && (d.producers[k].tier == D.Verified ==> D.ChainSince(d, k, d.producers[k].monthStart) <= 10_000_000)
  {
    RecordsStayWithinTier(funds, steps);
    DevicesRefine(funds, steps);
    D.MonthIsSinceItsStart(DeviceTrace(funds, steps), k);
  }

  // ------------------------------------------------------------- rated power

  /** The rated power of an owner's profile; 0 where there is none. */
  function RatedPower(s: State, owner: Key): U64 {
    if owner in s.profiles then s.profiles[owner].ratedPower else 0
  }

  lemma {:induction false} MintKeepsPower(s: State, m: Request, now: Time, owner: Key)
    requires MintEnergy(s, m, now).Ok?
    ensures RatedPower(MintEnergy(s, m, now).value, owner) == RatedPower(s, owner)
  {
  }

  lemma {:induction false} PowerStep(s: State, step: Step, owner: Key)
    requires RatedPower(s, owner) <= MAX_RATED_POWER
    ensures RatedPower(Next(s, step), owner) <= MAX_RATED_POWER
    ensures RatedPower(s, owner) != 0 ==> RatedPower(Next(s, step), owner) == RatedPower(s, owner)
  {
    match step
    case MintStep(m, now) => if MintEnergy(s, m, now).Ok? { MintKeepsPower(s, m, now, owner); }
    case _ =>
  }

  /** A rated power is never above one megawatt. */
  lemma {:induction false} RatedPowerBounded(funds: T.Funds, steps: seq<Step>, owner: Key)
    ensures RatedPower(Run(funds, steps), owner) <= 1_000_000
  {
    if steps == [] {
    } else {
      RatedPowerBounded(funds, steps[..|steps| - 1], owner);
      PowerStep(Run(funds, steps[..|steps| - 1]), steps[|steps| - 1], owner);
    }
  }

  /** Once it is set no run changes it: an owner cannot raise its own cap on the energy of a report. */
  lemma {:induction false} RatedPowerIsFixed(funds: T.Funds, before: seq<Step>, after: seq<Step>, owner: Key)
    requires RatedPower(Run(funds, before), owner) != 0
    ensures RatedPower(Run(funds, before + after), owner) == RatedPower(Run(funds, before), owner)
    decreases |after|
  {
    if after == [] {
      assert before + after == before;
    } else {
      var shorter := before + after[..|after| - 1];
      RatedPowerIsFixed(funds, before, after[..|after| - 1], owner);
      RatedPowerBounded(funds, shorter, owner);
      PowerStep(Run(funds, shorter), after[|after| - 1], owner);
      assert (before + after)[..|before + after| - 1] == shorter;
    }
  }

  // ------------------------------------------------------------- what the defaults admit

  /** The quorum gate lets a report through exactly when no quorum is required, or the attestation for its
      device and nonce is supplied, final, and for the report's own data. */
  lemma {:induction false} GateIff(q: Q.State, r: Report, given: bool)
    requires q.config.Some?
    requires var key := Q.Report(r.device, r.nonce);
             key in q.attestations ==> Q.AttestationOk(q, key)
    ensures var key := Q.Report(r.device, r.nonce);
            Gate(q, r, given) == Pass <==>
              !q.config.value.required ||
              (given && key in q.attestations && q.attestations[key].finalized
               && q.attestations[key].hash == Q.Proof(r.device, r.nonce, r.at, r.energy))
  {
  }

  /** Both clocks of a report are fresh. */
  predicate Fresh(r: Report, now: Time) {
    && now - 900 <= r.verifiedAt <= now + 300 && r.verifiedAt - 900 <= r.at <= r.verifiedAt + 300
  }

  /** The policy in force: the registry's where its account is supplied, and else every check on, ten thousand
      basis points and five minutes. */
  lemma {:induction false} PolicyInForce(s: State, m: Request)
    ensures PolicyFor(s, m) == if m.policyGiven && s.policy.Some? then s.policy.value
                               else Policy(true, true, true, true, true, true, 10_000, 300)
  {
  }

  /** The month's energy within 100 kWh for a basic device and 10 MWh for a verified one; no limit for others. */
  predicate WithinMonth(tier: D.Tier, energy: nat) {
    (tier == D.Basic ==> energy <= 100_000) && (tier == D.Verified ==> energy <= 10_000_000)
  }

  /** What a policy asks of a report beyond its proof: each check only where the policy has it on. */
  predicate Admits(policy: Policy, p: D.Producer, r: Report, trusted: bool, ratedPower: U64, now: Time) {
    && policy.mintEnabled && (policy.whitelist ==> trusted)
    && (policy.deviceState ==> !p.revoked && p.state == D.Active && WithinMonth(p.tier, D.MonthBefore(p, now) + 1))
    && now - 900 <= r.verifiedAt <= now + policy.maxClockSkew
    && r.verifiedAt - 900 <= r.at <= r.verifiedAt + policy.maxClockSkew
    && (policy.tierLimits ==> WithinMonth(p.tier, D.MonthBefore(p, now) + r.energy))
    && (policy.energyCaps ==> ratedPower * policy.maxEnergyBps <= U64_MAX && 10_000 * r.energy <= ratedPower * policy.maxEnergyBps)
  }

  lemma {:induction false} CapIff(energy: nat, product: nat)
    ensures energy <= product / 10_000 <==> 10_000 * energy <= product
  {
  }

  lemma {:induction false} PreambleIff(policy: Policy, p: D.Producer, r: Report, trusted: bool, ratedPower: U64, now: Time)
    ensures EvaluatePreamble(policy, D.RollMonth(p, now), r, trusted, ratedPower, now) == Pass
         <==> Admits(policy, p, r, trusted, ratedPower, now)
  {
    CapIff(r.energy, ratedPower * policy.maxEnergyBps);
  }

  /** Under any policy a report passes exactly with its owner's accounts, both signatures, a new nonce, an open gate,
      and the admission of the policy in force. */
  lemma {:induction false} VerifyIff(s: State, m: Request, now: Time)
    requires m.producer in s.devices.producers
    ensures var p, r := s.devices.producers[m.producer], m.report;
            Verify(s, m, now) == Pass <==>
              && m.userOwner == p.authority && p.authority in s.profiles && (m.policyGiven ==> s.policy.Some?)
              && !p.revoked && p.deviceId == r.device && m.submitter in {p.authority, r.oracle}
              && r.deviceSigned && r.oracleSigned && p.nonce < r.nonce
              && Gate(s.quorum, r, m.attestationGiven) == Pass
              && Admits(PolicyFor(s, m), p, r, r.oracle in s.quorum.oracles, s.profiles[p.authority].ratedPower, now)
  {
    var p := s.devices.producers[m.producer];
    if p.authority in s.profiles {
      PreambleIff(PolicyFor(s, m), p, m.report, m.report.oracle in s.quorum.oracles, s.profiles[p.authority].ratedPower, now);
    }
  }

  /** The pool accounts: neither given, or both, of a pool the device has joined and whose sums take the energy. */
  predicate PoolTakes(s: State, m: Request) {
    match m.pool
    case None => !m.shareGiven
    case Some(k) =>
      && m.shareGiven && k in s.pools && m.producer in s.pools[k].producers && m.producer in s.pools[k].contributions
      && s.pools[k].totalEnergy + m.report.energy <= U128_MAX
      && s.pools[k].contributions[m.producer] + m.report.energy <= U128_MAX
  }

  /** The reward: not zero, with room for it in the supply, under the cap where the policy in force has it on, and in
      the accounts it is split over. */
  predicate RewardTaken(s: State, m: Request, reward: U64) {
    && 1 <= reward && reward * 85 <= U64_MAX && s.tokens.supply + reward <= U64_MAX
    && (PolicyFor(s, m).supplyCap ==> s.tokens.supply + reward <= s.tokens.maxSupply)
    && m.user in s.tokens.balances && s.tokens.funds.buyback in s.tokens.balances && s.tokens.funds.staking in s.tokens.balances
    && s.tokens.funds.dao in s.tokens.balances && s.tokens.funds.emergency in s.tokens.balances
  }

  lemma {:induction false} AcceptPart(s: State, m: Request, now: Time)
    requires m.producer in s.devices.producers
    ensures var p := s.devices.producers[m.producer];
            D.Accept(s.devices, m.producer, m.report.nonce, m.report.energy, m.report.verifiedAt, now).Ok? <==>
              && !p.revoked && p.nonce < m.report.nonce && p.energy + m.report.energy <= U64_MAX
              && D.MonthBefore(p, now) + m.report.energy <= U64_MAX && s.devices.totalEnergy + m.report.energy <= U128_MAX
  {
  }

  lemma {:induction false} PoolTakesIff(s: State, m: Request)
    ensures Contributed(s.pools, m).Ok? <==> PoolTakes(s, m)
  {
  }

  lemma {:induction false} PrepareIff(s: State, m: Request, now: Time)
    requires T.Inv(s.tokens) && m.producer in s.devices.producers
    ensures var p := s.devices.producers[m.producer];
            Prepare(s, m, now).Ok? <==>
              && !p.revoked && p.nonce < m.report.nonce && p.energy + m.report.energy <= U64_MAX
              && D.MonthBefore(p, now) + m.report.energy <= U64_MAX && s.devices.totalEnergy + m.report.energy <= U128_MAX
              && RewardTaken(s, m, RewardFor(s, m, now)) && s.totalProofs < U64_MAX && PoolTakes(s, m)
  {
    AcceptPart(s, m, now);
    T.MintRewardIff(s.tokens, RewardFor(s, m, now), m.user, PolicyFor(s, m).supplyCap);
    PoolTakesIff(s, m);
  }

  lemma {:induction false} VerifiedRecord(s: State, m: Request, now: Time)
    requires Verify(s, m, now) == Pass
    ensures m.producer in s.devices.producers && s.devices.producers[m.producer].authority in s.profiles
    ensures !s.devices.producers[m.producer].revoked && s.devices.producers[m.producer].nonce < m.report.nonce
  {
  }

  lemma {:induction false} MintIsBoth(s: State, m: Request, now: Time)
    ensures MintEnergy(s, m, now).Ok? <==> Verify(s, m, now) == Pass && Prepare(s, m, now).Ok?
  {
  }

  /** Over every run a report that passes is minted exactly while the sums it enters fit, its reward can be paid, and
      its pool takes it. */
  lemma {:induction false} MintIff(funds: T.Funds, steps: seq<Step>, m: Request, now: Time)
    ensures var s := Run(funds, steps);
            MintEnergy(s, m, now).Ok? <==>
              && Verify(s, m, now) == Pass && m.producer in s.devices.producers
              && s.devices.producers[m.producer].energy + m.report.energy <= U64_MAX
              && D.MonthBefore(s.devices.producers[m.producer], now) + m.report.energy <= U64_MAX
              && s.devices.totalEnergy + m.report.energy <= U128_MAX
              && RewardTaken(s, m, RewardFor(s, m, now)) && s.totalProofs < U64_MAX && PoolTakes(s, m)
  {
    var s := Run(funds, steps);
    SupplyIsAccountedFor(funds, steps);
    MintIsBoth(s, m, now);
    if Verify(s, m, now) == Pass {
      VerifiedRecord(s, m, now);
      PrepareIff(s, m, now);
    }
  }

  /** Judged by the default policy, a report is admitted exactly for an active device with its owner's
      accounts, both signatures, a new nonce, an open gate, a registered oracle, fresh clocks, and no more
      energy than the month's allowance and the profile's rated power. */
  lemma {:induction false} DefaultsAdmitIff(s: State, m: Request, now: Time)
    requires m.producer in s.devices.producers && PolicyFor(s, m) == DEFAULT_POLICY
    ensures var p, r := s.devices.producers[m.producer], m.report;
            Verify(s, m, now) == Pass <==>
              && m.userOwner == p.authority && p.authority in s.profiles && (m.policyGiven ==> s.policy.Some?)
              && p.deviceId == r.device && m.submitter in {p.authority, r.oracle}
              && r.deviceSigned && r.oracleSigned && p.nonce < r.nonce
              && Gate(s.quorum, r, m.attestationGiven) == Pass
              && r.oracle in s.quorum.oracles && !p.revoked && p.state == D.Active && Fresh(r, now)
              && WithinMonth(p.tier, D.MonthBefore(p, now) + 1) && WithinMonth(p.tier, D.MonthBefore(p, now) + r.energy)
              && r.energy <= s.profiles[p.authority].ratedPower && s.profiles[p.authority].ratedPower * 10_000 <= U64_MAX
  {
    VerifyIff(s, m, now);
  }

  /** Profiles and policies: opened once within a megawatt, the rated power set once within it, and a policy set by
      its authority within its bounds. */
  lemma {:induction false} SettingsIff(s: State, owner: Key, ratedPower: U64, now: Time, policy: Policy, isAuthority: bool)
    ensures OpenProfile(s, owner, ratedPower, now).Ok? <==> owner !in s.profiles && ratedPower <= 1_000_000
    ensures OpenProfile(s, owner, ratedPower, now).Ok? ==>
              OpenProfile(s, owner, ratedPower, now).value.profiles == s.profiles[owner := Profile(ratedPower, 0, now)]
    ensures SetRatedPower(s, owner, ratedPower).Ok? <==>
              owner in s.profiles && ratedPower <= 1_000_000
              && (s.profiles[owner].ratedPower == 0 || s.profiles[owner].ratedPower == ratedPower)
    ensures SetRatedPower(s, owner, ratedPower).Ok? ==> RatedPower(SetRatedPower(s, owner, ratedPower).value, owner) == ratedPower
    ensures UpdatePolicy(s, policy, isAuthority).Ok? <==> isAuthority && 1 <= policy.maxEnergyBps <= 1_000_000 && policy.maxClockSkew <= 3600
    ensures UpdatePolicy(s, policy, isAuthority).Ok? ==> UpdatePolicy(s, policy, isAuthority).value == s.(policy := Some(policy))
  {
  }

  /** The registry's policy binds a mint exactly where its optional account is supplied: without it the
      verdict and the state are what they would be under any other registry, and a paused registry that is
      supplied stops every mint. */
  lemma {:induction false} RegistryBindsWhereGiven(s: State, other: Option<Policy>, m: Request, now: Time)
    ensures !m.policyGiven ==>
      Verify(s.(policy := other), m, now) == Verify(s, m, now)
      && (MintEnergy(s, m, now).Ok? <==> MintEnergy(s.(policy := other), m, now).Ok?)
    ensures m.policyGiven && s.policy.Some? && !s.policy.value.mintEnabled ==> MintEnergy(s, m, now).Err?
  {
  }

  // ------------------------------------------------------------- the program

  /** The accounts `mint_energy` touches, updated in its order; a failed instruction commits nothing. */
  class MintProgram {
    var devices: D.State
    var quorum: Q.State
    var tokens: T.State
    var pools: map<Key, P.State>
    var profiles: map<Key, Profile>
    var networkEnergy: U128
    var networkAt: Time
    var totalProofs: U64
    var policy: Option<Policy>

    function Accounts(): State
      reads this
    {
      State(devices, quorum, tokens, pools, profiles, networkEnergy, networkAt, totalProofs, policy)
    }

    constructor (funds: T.Funds)
      ensures Accounts() == Initial(funds)
    {
      devices, quorum, tokens := D.Initial(), Q.Initial(), T.Initial(funds);
      pools, profiles, networkEnergy, networkAt, totalProofs, policy := map[], map[], 0, 0, 0, None;
    }

    method CheckGate(r: Report, given: bool) returns (checked: Outcome)
      ensures checked == Gate(quorum, r, given)
    {
      if quorum.config.None? {
        return Fail(AccountMissing);
      }
      if quorum.config.value.required {
        var key := Q.Report(r.device, r.nonce);
        if !given || key !in quorum.attestations {
          return Fail(AttestationRequired);
        }
        var attestation := quorum.attestations[key];
        if !attestation.finalized {
          return Fail(AttestationNotFinalized);
        }
        if attestation.deviceId != r.device {
          return Fail(DeviceMismatch);
        }
        if attestation.nonce != r.nonce {
          return Fail(InvalidNonce);
        }
        if attestation.hash != ProofHash(r) {
          return Fail(AttestationHashMismatch);
        }
      }
      checked := Pass;
    }

    method CheckMint(m: Request, now: Time) returns (checked: Outcome)
      ensures checked == Verify(Accounts(), m, now)
    {
      if m.producer !in devices.producers {
        return Fail(AccountMissing);
      }
      var producer := devices.producers[m.producer];
      if m.userOwner != producer.authority {
        return Fail(UnauthorizedTokenAccountOwner);
      }
      if producer.authority !in profiles || (m.policyGiven && policy.None?) {
        return Fail(AccountMissing);
      }
      producer := D.RollMonth(producer, now);
      if producer.revoked {
        return Fail(DeviceRevoked);
      }
      if producer.deviceId != m.report.device {
        return Fail(DeviceMismatch);
      }
      if m.submitter != producer.authority && m.submitter != m.report.oracle {
        return Fail(NotProducerOwner);
      }
      if !m.report.deviceSigned || !m.report.oracleSigned {
        return Fail(Ed25519VerificationFailed);
      }
      if m.report.nonce <= producer.nonce {
        return Fail(InvalidNonce);
      }
      checked := CheckGate(m.report, m.attestationGiven);
      if checked == Pass {
        checked := EvaluatePreamble(PolicyFor(Accounts(), m), producer, m.report, m.report.oracle in quorum.oracles,
                                    profiles[producer.authority].ratedPower, now);
      }
    }

    method PrepareMint(m: Request, now: Time) returns (r: Result<Moves>)
      requires m.producer in devices.producers && devices.producers[m.producer].authority in profiles
      ensures r == Prepare(Accounts(), m, now)
    {
      var energy := m.report.energy;
      var network := W.Accumulate(networkEnergy, networkAt, now, energy);
      var profile := profiles[devices.producers[m.producer].authority];
      var accepted :- D.Accept(devices, m.producer, m.report.nonce, energy, m.report.verifiedAt, now);
      var reward := E.CalculateRewardDynamic(energy, tokens.supply, profile.energy30d % (U64_MAX + 1), network);
      var minted :- T.MintReward(tokens, reward, m.user, PolicyFor(Accounts(), m).supplyCap);
      :- Need(totalProofs < U64_MAX, ArithmeticOverflow);
      var contributed :- Contributed(pools, m);
      r := Ok(Moves(accepted, minted, contributed));
    }

    method ExecuteMint(m: Request, now: Time) returns (r: Result<()>)
      requires m.producer in devices.producers && devices.producers[m.producer].authority in profiles
      modifies this
      ensures Commits(Execute(old(Accounts()), m, now), old(Accounts()), Accounts(), r)
    {
      var moves :- PrepareMint(m, now);
      var owner := devices.producers[m.producer].authority;
      var profile := profiles[owner];
      networkEnergy := W.Accumulate(networkEnergy, networkAt, now, m.report.energy);
      networkAt := now;
      profiles := profiles[owner := Profile(profile.ratedPower,
                                            W.Slide(profile.energy30d, profile.updatedAt, now, m.report.energy), now)];
      devices := moves.devices;
      tokens := moves.tokens;
      pools := moves.pools;
      totalProofs := totalProofs + 1;
      r := Ok(());
    }

    method Mint(m: Request, now: Time) returns (r: Result<()>)
      modifies this
      ensures Commits(MintEnergy(old(Accounts()), m, now), old(Accounts()), Accounts(), r)
    {
      var checked := CheckMint(m, now);
      :- checked;
      r := ExecuteMint(m, now);
    }
  }
}
