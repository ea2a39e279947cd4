/** The oracle registry, the oracles' deposits, and the quorum that finalizes an attestation. */
module OracleQuorum {
  import opened Arithmetic
  import opened Protocol

  const MAX_ORACLES: nat := 100
  const DEFAULT_THRESHOLD: nat := 2
  const MIN_STAKE: nat := 1_000_000

  type U8 = n: nat | n <= 255

  /** The hash of a report's device-signed data. SHA-256 is taken to be collision-free and never
      all-zero, so `Proof` is a constructor; `Foreign` is any other digest. */
  datatype ProofHash = ZeroHash | Proof(device: Key, nonce: U64, at: int, energy: U64) | Foreign(id: nat)

  /** What an attestation account's address is derived from. */
  datatype Report = Report(device: Key, nonce: U64)

  datatype VoteKey = VoteKey(report: Report, oracle: Key)

  datatype Vote = Vote(oracle: Key, hash: ProofHash, votedAt: Time, rewardClaimed: bool)

  datatype Attestation = Attestation(
    deviceId: Key, nonce: U64, hash: ProofHash, votes: U8, finalized: bool, conflict: bool, createdAt: Time)

  datatype Stake = Stake(lamports: U64, joinedAt: Time, slashed: bool)

  datatype Config = Config(authority: Key, required: bool, threshold: U8, rewardPerVote: U64)

  datatype State = State(
    oracles: seq<Key>, stakes: map<Key, Stake>, attestations: map<Report, Attestation>,
    votes: map<VoteKey, Vote>, config: Option<Config>)

  function Initial(): State {
    State([], map[], map[], map[], None)
  }

  // ------------------------------------------------------------- the handlers

  function AddOracle(s: State, oracle: Key, isAdmin: bool): Result<State> {
    var present := oracle in s.oracles;
    :- Need(isAdmin, Unauthorized);
    :- Need(!present, AlreadyExists);
    :- Need(|s.oracles| < MAX_ORACLES, InvalidParameter);
    Ok(s.(oracles := s.oracles + [oracle]))
  }

  function Without(oracles: seq<Key>, oracle: Key): seq<Key> {
    if oracles == [] then []
    else if oracles[0] == oracle then oracles[1..]
    else [oracles[0]] + Without(oracles[1..], oracle)
  }

  function RemoveOracle(s: State, oracle: Key, isAdmin: bool): Result<State> {
    var present := oracle in s.oracles;
    :- Need(isAdmin, Unauthorized);
    :- Need(present, NotFound);
    Ok(s.(oracles := Without(s.oracles, oracle)))
  }

  function StakeOracle(s: State, oracle: Wallet, lamports: U64, now: Time): Result<State> {
    var present := oracle in s.oracles;
    :- Need(present, UntrustedOracle);
    :- Need(MIN_STAKE <= lamports, InsufficientStake);
    var stake := if oracle in s.stakes then s.stakes[oracle] else Stake(0, now, false);
    :- Need(stake.lamports + lamports <= U64_MAX, ArithmeticOverflow);
    Ok(s.(stakes := s.stakes[oracle := stake.(lamports := stake.lamports + lamports)]))
  }

  function SlashOracle(s: State, oracle: Key, isGovernance: bool): Result<State> {
    var known := oracle in s.stakes;
    :- Need(known, AccountMissing);
    :- Need(!s.stakes[oracle].slashed, Unauthorized);
    :- Need(isGovernance, Unauthorized);
    :- Need(0 < s.stakes[oracle].lamports, NothingToClaim);
    Ok(s.(stakes := s.stakes[oracle := s.stakes[oracle].(lamports := 0, slashed := true)]))
  }

  function InitQuorum(s: State, authority: Key, isRegistryAuthority: bool, required: bool, threshold: U8, reward: U64): Result<State> {
    var valid := 2 <= threshold <= MAX_ORACLES;
    :- Need(s.config.None?, AccountInUse);
    :- Need(isRegistryAuthority, Unauthorized);
    :- Need(valid, InvalidQuorumThreshold);
    Ok(s.(config := Some(Config(authority, required, threshold, reward))))
  }

  function SetQuorum(s: State, signer: Key, required: bool, threshold: U8, reward: U64): Result<State> {
    var valid := 2 <= threshold <= MAX_ORACLES;
    :- Need(s.config.Some?, AccountMissing);
    :- Need(s.config.value.authority == signer, Unauthorized);
    :- Need(valid, InvalidQuorumThreshold);
    Ok(s.(config := Some(s.config.value.(required := required, threshold := threshold, rewardPerVote := reward))))
  }

  const BLANK := Attestation(NO_KEY, 0, ZeroHash, 0, false, false, 0)

  /** `apply_vote`: the first vote fixes the hash, and only agreeing votes count. */
  function ApplyVote(a: Attestation, report: Report, hash: ProofHash, now: Time): Attestation {
    if a.votes == 0 then a.(deviceId := report.device, nonce := report.nonce, hash := hash, createdAt := now, votes := 1)
    else if a.hash == hash then a.(votes := Min(255, a.votes + 1))
    else a.(conflict := true)
  }

  /** The config account is optional here; without it the default threshold applies. */
  function Threshold(s: State, configGiven: bool): nat {
    if configGiven && s.config.Some? then s.config.value.threshold else DEFAULT_THRESHOLD
  }

  function Account(s: State, report: Report): Attestation {
    if report in s.attestations then s.attestations[report] else BLANK
  }

  function Submit(s: State, report: Report, oracle: Key, hash: ProofHash, signed: bool, configGiven: bool, now: Time): Result<State> {
    var key := VoteKey(report, oracle);
    :- Need(key !in s.votes, AccountInUse);
    :- Need(oracle in s.oracles, UntrustedOracle);
    :- Need(oracle in s.stakes, AccountMissing);
    :- Need(!s.stakes[oracle].slashed, Unauthorized);
    :- Need(configGiven ==> s.config.Some?, AccountMissing);
    :- Need(report.device != NO_KEY, InvalidParameter);
    :- Need(hash != ZeroHash, InvalidLeafHash);
    :- Need(signed, Ed25519VerificationFailed);
    var a := ApplyVote(Account(s, report), report, hash, now);
    var final := a.finalized || Threshold(s, configGiven) <= a.votes;
    Ok(s.(votes := s.votes[key := Vote(oracle, hash, now, false)],
          attestations := s.attestations[report := a.(finalized := final)]))
  }

  /** `claim_oracle_reward`, up to the transfer out of a staking fund holding `fund`. */
  function ClaimReward(s: State, key: VoteKey, fund: U64): Result<State> {
    var known := key in s.votes && key.report in s.attestations;
    :- Need(known, AccountMissing);
    :- Need(s.config.Some?, AccountMissing);
    :- Need(s.attestations[key.report].finalized, AttestationNotFinalized);
    :- Need(!s.votes[key].rewardClaimed, AlreadyClaimed);
    :- Need(0 < s.config.value.rewardPerVote, NothingToClaim);
    :- Need(s.config.value.rewardPerVote <= fund, InsufficientFunds);
    Ok(s.(votes := s.votes[key := s.votes[key].(rewardClaimed := true)]))
  }

  // ------------------------------------------------------------- runs

  datatype Step =
    | AddStep(oracle: Key, isAdmin: bool)
    | RemoveStep(oracle: Key, isAdmin: bool)
    | StakeStep(staker: Wallet, lamports: U64, now: Time)
    | SlashStep(oracle: Key, isGovernance: bool)
    | InitQuorumStep(authority: Key, isRegistryAuthority: bool, required: bool, threshold: U8, reward: U64)
    | SetQuorumStep(signer: Key, required: bool, threshold: U8, reward: U64)
    | SubmitStep(report: Report, oracle: Key, hash: ProofHash, signed: bool, configGiven: bool, now: Time)
    | ClaimStep(key: VoteKey, fund: U64)

  function Attempt(s: State, step: Step): Result<State> {
    match step
    case AddStep(o, isAdmin) => AddOracle(s, o, isAdmin)
    case RemoveStep(o, isAdmin) => RemoveOracle(s, o, isAdmin)
    case StakeStep(o, lamports, now) => StakeOracle(s, o, lamports, now)
    case SlashStep(o, isGovernance) => SlashOracle(s, o, isGovernance)
    case InitQuorumStep(a, isAuthority, required, threshold, reward) => InitQuorum(s, a, isAuthority, required, threshold, reward)
    case SetQuorumStep(signer, required, threshold, reward) => SetQuorum(s, signer, required, threshold, reward)
    case SubmitStep(r, o, h, signed, configGiven, now) => Submit(s, r, o, h, signed, configGiven, now)
    case ClaimStep(key, fund) => ClaimReward(s, key, fund)
  }

  function Next(s: State, step: Step): State {
    Settle(Attempt(s, step), s)
  }

  function Run(steps: seq<Step>): State {
    if steps == [] then Initial() else Next(Run(steps[..|steps| - 1]), steps[|steps| - 1])
  }

  // ------------------------------------------------------------- the invariant

  /** The votes on a report for one hash; one per oracle. */
  function Agreeing(s: State, report: Report, hash: ProofHash): set<VoteKey> {
    set key | key in s.votes && key.report == report && s.votes[key].hash == hash
  }

  ghost predicate AttestationOk(s: State, report: Report)
    requires report in s.attestations
  {
    var a := s.attestations[report];
    && a.deviceId == report.device && a.nonce == report.nonce && a.hash != ZeroHash
    && 1 <= a.votes == Min(255, |Agreeing(s, report, a.hash)|)
    && (a.finalized ==> 2 <= a.votes)
  }

  ghost predicate VotesOk(s: State) {
    forall key {:trigger key in s.votes} :: key in s.votes ==>
      key.report in s.attestations && s.votes[key].oracle == key.oracle && s.votes[key].hash != ZeroHash
  }

  /** A deposit not slashed is at least the smallest one accepted. */
  ghost predicate DepositsOk(s: State) {
    forall o :: o in s.stakes ==> s.stakes[o].slashed || MIN_STAKE <= s.stakes[o].lamports
  }

  ghost predicate Inv(s: State) {
    && (forall r {:trigger AttestationOk(s, r)} :: r in s.attestations ==> AttestationOk(s, r))
    && VotesOk(s) && DepositsOk(s)
    && (s.config.Some? ==> 2 <= s.config.value.threshold <= MAX_ORACLES)
    && Distinct(s.oracles) && |s.oracles| <= MAX_ORACLES
  }

  lemma {:induction false} WithoutIs(oracles: seq<Key>, oracle: Key)
    requires oracle in oracles && Distinct(oracles)
    ensures |Without(oracles, oracle)| == |oracles| - 1 && Distinct(Without(oracles, oracle))
    ensures forall o :: o in Without(oracles, oracle) <==> o in oracles && o != oracle
  {
    if oracles[0] == oracle {
      assert oracles == [oracle] + oracles[1..];
    } else {
      assert oracles == [oracles[0]] + oracles[1..];
      assert Distinct(oracles[1..]);
      WithoutIs(oracles[1..], oracle);
      var rest := Without(oracles[1..], oracle);
      assert oracles[0] !in rest;
    }
  }

  /** Removing a key is cutting it out where it first stands. */
  lemma {:induction false} WithoutAt(oracles: seq<Key>, index: nat, oracle: Key)
    requires index < |oracles| && oracles[index] == oracle && oracle !in oracles[..index]
    ensures Without(oracles, oracle) == oracles[..index] + oracles[index + 1..]
  {
    if index == 0 {
    } else {
      assert oracles[..index][0] == oracles[0];
      assert oracles[1..][..index - 1] == oracles[..index][1..];
      WithoutAt(oracles[1..], index - 1, oracle);
    }
  }

  lemma {:induction false} SameVotesSameAttestation(s: State, t: State, r: Report)
    requires r in s.attestations && r in t.attestations && t.attestations[r] == s.attestations[r]
    requires AttestationOk(s, r)
    requires Agreeing(t, r, s.attestations[r].hash) == Agreeing(s, r, s.attestations[r].hash)
    ensures AttestationOk(t, r)
  {
  }

  /** One more vote adds itself to those who agree with it, and to no others. */
  lemma {:induction false} VoteAdds(s: State, t: State, key: VoteKey, vote: Vote, report: Report, hash: ProofHash)
    requires key !in s.votes && t.votes == s.votes[key := vote]
    ensures Agreeing(t, report, hash)
         == Agreeing(s, report, hash) + (if key.report == report && vote.hash == hash then {key} else {})
  {
    var before, after := Agreeing(s, report, hash), Agreeing(t, report, hash);
    var added := if key.report == report && vote.hash == hash then {key} else {};
    forall k ensures k in after <==> k in before + added {
      if k != key {
        assert k in t.votes <==> k in s.votes;
      }
    }
  }

  lemma {:induction false} VoteCounts(s: State, t: State, key: VoteKey, vote: Vote, hash: ProofHash)
    requires key !in s.votes && t.votes == s.votes[key := vote]
    ensures |Agreeing(t, key.report, hash)| == |Agreeing(s, key.report, hash)| + (if vote.hash == hash then 1 else 0)
  {
    VoteAdds(s, t, key, vote, key.report, hash);
    assert key !in Agreeing(s, key.report, hash);
  }

  lemma {:induction false} SubmitKeepsAttestation(s: State, report: Report, oracle: Key, hash: ProofHash, signed: bool, configGiven: bool, now: Time)
    requires Inv(s) && Submit(s, report, oracle, hash, signed, configGiven, now).Ok?
    ensures AttestationOk(Submit(s, report, oracle, hash, signed, configGiven, now).value, report)
  {
    var t, key := Submit(s, report, oracle, hash, signed, configGiven, now).value, VoteKey(report, oracle);
    VoteCounts(s, t, key, t.votes[key], t.attestations[report].hash);
    if report in s.attestations {
      assert AttestationOk(s, report);
    } else {
      assert Agreeing(s, report, hash) == {} by {
        forall k | k in s.votes ensures k.report != report {
        }
      }
    }
  }

  lemma {:induction false} SubmitKeeps(s: State, report: Report, oracle: Key, hash: ProofHash, signed: bool, configGiven: bool, now: Time)
    requires Inv(s)
    ensures Inv(Settle(Submit(s, report, oracle, hash, signed, configGiven, now), s))
  {
    var res := Submit(s, report, oracle, hash, signed, configGiven, now);
    if res.Ok? {
      var t, key := res.value, VoteKey(report, oracle);
      SubmitKeepsAttestation(s, report, oracle, hash, signed, configGiven, now);
      forall r {:trigger AttestationOk(t, r)} | r in t.attestations ensures AttestationOk(t, r) {
        if r != report {
          assert AttestationOk(s, r);
          VoteAdds(s, t, key, t.votes[key], r, s.attestations[r].hash);
          SameVotesSameAttestation(s, t, r);
        }
      }
    }
  }

  lemma {:induction false} ClaimKeeps(s: State, key: VoteKey, fund: U64)
    requires Inv(s)
    ensures Inv(Settle(ClaimReward(s, key, fund), s))
  {
    var res := ClaimReward(s, key, fund);
    if res.Ok? {
      var t := res.value;
      forall r {:trigger AttestationOk(t, r)} | r in t.attestations ensures AttestationOk(t, r) {
        assert AttestationOk(s, r);
        var h := s.attestations[r].hash;
        assert Agreeing(t, r, h) == Agreeing(s, r, h);
        SameVotesSameAttestation(s, t, r);
      }
    }
  }

  lemma {:induction false} OtherStepsKeep(s: State, step: Step)
    requires Inv(s) && !step.SubmitStep? && !step.ClaimStep?
    ensures Inv(Next(s, step))
  {
    var t := Next(s, step);
    if step.RemoveStep? && step.oracle in s.oracles {
      WithoutIs(s.oracles, step.oracle);
    }
    forall r {:trigger AttestationOk(t, r)} | r in t.attestations ensures AttestationOk(t, r) {
      assert AttestationOk(s, r);
      var h := s.attestations[r].hash;
      assert Agreeing(t, r, h) == Agreeing(s, r, h);
      SameVotesSameAttestation(s, t, r);
    }
  }

  lemma {:induction false} NextKeeps(s: State, step: Step)
    requires Inv(s)
    ensures Inv(Next(s, step))
  {
    match step
    case SubmitStep(r, o, h, signed, configGiven, now) => SubmitKeeps(s, r, o, h, signed, configGiven, now);
    case ClaimStep(key, fund) => ClaimKeeps(s, key, fund);
    case _ => OtherStepsKeep(s, step);
  }

  lemma {:induction false} RunKeeps(steps: seq<Step>)
    ensures Inv(Run(steps))
  {
    if steps == [] {
    } else {
      RunKeeps(steps[..|steps| - 1]);
      NextKeeps(Run(steps[..|steps| - 1]), steps[|steps| - 1]);
    }
  }

  // ------------------------------------------------------------- what a finalized attestation means

  /** The step is the vote under `key`, signed, by an oracle registered and with the smallest deposit or
      more, not slashed; and it goes through. */
  ghost predicate Casts(s: State, step: Step, key: VoteKey, hash: ProofHash) {
    && Attempt(s, step).Ok?
    && step.SubmitStep? && step.report == key.report && step.oracle == key.oracle && step.hash == hash && step.signed
    && key.oracle in s.oracles && key.oracle in s.stakes
    && !s.stakes[key.oracle].slashed && MIN_STAKE <= s.stakes[key.oracle].lamports
  }

  ghost predicate CastAt(steps: seq<Step>, i: nat, key: VoteKey, hash: ProofHash)
    requires i < |steps|
  {
    Casts(Run(steps[..i]), steps[i], key, hash)
  }

  lemma {:induction false} VoteAppears(s: State, step: Step, key: VoteKey)
    requires DepositsOk(s) && key !in s.votes && key in Next(s, step).votes
    ensures Casts(s, step, key, Next(s, step).votes[key].hash)
  {
  }

  /** Every recorded vote was cast that way. */
  lemma {:induction false} VotesWereCast(steps: seq<Step>, key: VoteKey)
    requires key in Run(steps).votes
    ensures exists i: nat :: i < |steps| && CastAt(steps, i, key, Run(steps).votes[key].hash)
  {
    var last := |steps| - 1;
    var before := steps[..last];
    if key in Run(before).votes {
      VotesWereCast(before, key);
      VoteHashStands(Run(before), steps[last], key);
      var i: nat :| i < |before| && CastAt(before, i, key, Run(before).votes[key].hash);
      assert before[..i] == steps[..i];
      assert CastAt(steps, i, key, Run(steps).votes[key].hash);
    } else {
      RunKeeps(before);
      VoteAppears(Run(before), steps[last], key);
      assert CastAt(steps, last, key, Run(steps).votes[key].hash);
    }
  }

  lemma {:induction false} VoteHashStands(s: State, step: Step, key: VoteKey)
    requires key in s.votes
    ensures key in Next(s, step).votes && Next(s, step).votes[key].hash == s.votes[key].hash
  {
  }

  /** Two different elements of a set with at least two. */
  lemma {:induction false} TwoOf(keys: set<VoteKey>)
    requires 2 <= |keys|
    ensures exists a, b :: a in keys && b in keys && a != b
  {
    var a :| a in keys;
    assert |keys - {a}| >= 1;
    var b :| b in keys - {a};
  }

  /** Two distinct oracles stood behind `hash` when they voted on `report`. */
  ghost predicate Backed(steps: seq<Step>, report: Report, hash: ProofHash) {
    exists a: Key, b: Key, i: nat, j: nat ::
      && a != b && i < |steps| && j < |steps|
      && CastAt(steps, i, VoteKey(report, a), hash) && CastAt(steps, j, VoteKey(report, b), hash)
  }

  /** A finalized attestation is backed by two distinct oracles, each registered, staked and unslashed
      when it voted for the attestation's own hash. */
  lemma {:induction false} FinalizedIsBacked(steps: seq<Step>, report: Report)
    requires report in Run(steps).attestations && Run(steps).attestations[report].finalized
    ensures Backed(steps, report, Run(steps).attestations[report].hash)
  {
    var s := Run(steps);
    RunKeeps(steps);
    assert AttestationOk(s, report);
    var hash := s.attestations[report].hash;
    TwoOf(Agreeing(s, report, hash));
    var a, b :| a in Agreeing(s, report, hash) && b in Agreeing(s, report, hash) && a != b;
    VotesWereCast(steps, a);
    VotesWereCast(steps, b);
    var i: nat :| i < |steps| && CastAt(steps, i, a, s.votes[a].hash);
    var j: nat :| j < |steps| && CastAt(steps, j, b, s.votes[b].hash);
    assert a == VoteKey(report, a.oracle) && b == VoteKey(report, b.oracle);
    assert CastAt(steps, i, VoteKey(report, a.oracle), hash) && CastAt(steps, j, VoteKey(report, b.oracle), hash);
  }

  /** The counter is the number of agreeing oracles, up to the width of a byte, and an attestation is
      never final with fewer than two. */
  lemma {:induction false} VotesAreAgreeing(steps: seq<Step>, report: Report)
    requires report in Run(steps).attestations
    ensures var s := Run(steps); var a := s.attestations[report];
            && a.votes == Min(255, |Agreeing(s, report, a.hash)|)
            && (a.finalized ==> 2 <= |Agreeing(s, report, a.hash)|)
  {
    RunKeeps(steps);
    assert AttestationOk(Run(steps), report);
  }

  /** A vote makes its attestation final exactly when it was already, or the agreeing oracles reach the
      threshold in force; the first hash stays the canonical one. */
  lemma {:induction false} VoteFinalizesIff(steps: seq<Step>, report: Report, oracle: Key, hash: ProofHash, signed: bool, configGiven: bool, now: Time)
    requires Submit(Run(steps), report, oracle, hash, signed, configGiven, now).Ok?
    ensures var s := Run(steps);
            var t := Submit(s, report, oracle, hash, signed, configGiven, now).value;
            var a := t.attestations[report];
            && a.hash == (if report in s.attestations then s.attestations[report].hash else hash)
            && (a.finalized <==>
                  (report in s.attestations && s.attestations[report].finalized)
                  || (if configGiven && s.config.Some? then s.config.value.threshold else 2) <= |Agreeing(t, report, a.hash)|)
  {
    var s := Run(steps);
    RunKeeps(steps);
    SubmitKeepsAttestation(s, report, oracle, hash, signed, configGiven, now);
    if report in s.attestations {
      assert AttestationOk(s, report);
    }
  }

  lemma {:induction false} RunSnoc(steps: seq<Step>, step: Step)
    ensures Run(steps + [step]) == Next(Run(steps), step)
  {
    assert (steps + [step])[..|steps|] == steps;
  }

  /** Over every run: a vote supplied with a configuration of threshold k leaves an attestation open that was
      open, as long as fewer than k oracles agree on its hash; and without one, fewer than two. */
  lemma {:induction false} TooFewNeverFinalize(steps: seq<Step>, report: Report, oracle: Key, hash: ProofHash, signed: bool, configGiven: bool, now: Time)
    requires Submit(Run(steps), report, oracle, hash, signed, configGiven, now).Ok?
    requires var s := Run(steps); report in s.attestations ==> !s.attestations[report].finalized
    ensures var s := Run(steps);
            var t := Run(steps + [SubmitStep(report, oracle, hash, signed, configGiven, now)]);
            && report in t.attestations && (configGiven ==> s.config.Some?)
            && var agreed := |Agreeing(t, report, t.attestations[report].hash)|;
               && (configGiven && agreed < s.config.value.threshold ==> !t.attestations[report].finalized)
               && (!configGiven && agreed < 2 ==> !t.attestations[report].finalized)
  {
    VoteFinalizesIff(steps, report, oracle, hash, signed, configGiven, now);
    RunSnoc(steps, SubmitStep(report, oracle, hash, signed, configGiven, now));
  }

  /** A vote goes through exactly once for each report and oracle: signed by a registered oracle with a deposit not
      slashed, on a device and a hash that are not all-zero, and with a configuration that exists if one is
      supplied. */
  lemma {:induction false} SubmitIff(s: State, report: Report, oracle: Key, hash: ProofHash, signed: bool, configGiven: bool, now: Time)
    ensures Submit(s, report, oracle, hash, signed, configGiven, now).Ok? <==>
      && VoteKey(report, oracle) !in s.votes && oracle in s.oracles
      && oracle in s.stakes && !s.stakes[oracle].slashed
      && (configGiven ==> s.config.Some?) && report.device != 0 && hash != ZeroHash && signed
  {
  }

  /** The step votes on the report for a hash other than the one it settles on. */
  ghost predicate Contradicts(s: State, report: Report, key: VoteKey) {
    key in s.votes && key.report == report && report in s.attestations && s.votes[key].hash != s.attestations[report].hash
  }

  ghost predicate ConflictOk(s: State, report: Report)
    requires report in s.attestations
  {
    s.attestations[report].conflict <==> exists key :: Contradicts(s, report, key)
  }

  lemma {:induction false} ConflictStep(s: State, step: Step, report: Report)
    requires Inv(s) && (report in s.attestations ==> ConflictOk(s, report)) && report in Next(s, step).attestations
    ensures ConflictOk(Next(s, step), report)
  {
    var t := Next(s, step);
    if report in s.attestations {
      assert AttestationOk(s, report);
      forall key | Contradicts(s, report, key) ensures Contradicts(t, report, key) {
        VoteHashStands(s, step, key);
      }
      forall key | Contradicts(t, report, key)
        ensures Contradicts(s, report, key) || (step.SubmitStep? && key == VoteKey(step.report, step.oracle))
      {
        if key in s.votes {
          VoteHashStands(s, step, key);
        }
      }
      if step.SubmitStep? && step.report == report && Attempt(s, step).Ok? && step.hash != s.attestations[report].hash {
        assert Contradicts(t, report, VoteKey(step.report, step.oracle));
      }
    } else {
      forall key ensures !Contradicts(t, report, key) {
      }
    }
  }

  /** The conflict flag is raised exactly where some oracle voted for another hash than the attestation's. */
  lemma {:induction false} ConflictIff(steps: seq<Step>, report: Report)
    requires report in Run(steps).attestations
    ensures Run(steps).attestations[report].conflict <==> exists key :: Contradicts(Run(steps), report, key)
  {
    var before, step := steps[..|steps| - 1], steps[|steps| - 1];
    RunKeeps(before);
    if report in Run(before).attestations {
      ConflictIff(before, report);
    }
    ConflictStep(Run(before), step, report);
  }

  /** What an oracle has deposited since it was last slashed, over a run. */
  function Deposited(steps: seq<Step>, oracle: Key): nat {
    if steps == [] then 0
    else
      var before, step := steps[..|steps| - 1], steps[|steps| - 1];
      var so := Deposited(before, oracle);
      if !Attempt(Run(before), step).Ok? then so
      else if step.StakeStep? && step.staker == oracle then so + step.lamports
      else if step.SlashStep? && step.oracle == oracle then 0
      else so
  }

  predicate Slashed(steps: seq<Step>, oracle: Key) {
    steps != [] &&
      var before, step := steps[..|steps| - 1], steps[|steps| - 1];
      Slashed(before, oracle) || (step.SlashStep? && step.oracle == oracle && Attempt(Run(before), step).Ok?)
  }

  /** The account holds exactly the deposits since the last slash, and is marked exactly if there was one. */
  lemma {:induction false} StakesAreDeposits(steps: seq<Step>, oracle: Key)
    ensures var s := Run(steps);
            && Deposited(steps, oracle) == (if oracle in s.stakes then s.stakes[oracle].lamports else 0)
            && (Slashed(steps, oracle) <==> oracle in s.stakes && s.stakes[oracle].slashed)
  {
    if steps == [] {
    } else {
      StakesAreDeposits(steps[..|steps| - 1], oracle);
      StakeChange(Run(steps[..|steps| - 1]), steps[|steps| - 1], oracle);
    }
  }

  lemma {:induction false} StakeChange(s: State, step: Step, oracle: Key)
    ensures var t := Next(s, step);
            if step.StakeStep? && step.staker == oracle && Attempt(s, step).Ok? then
              && oracle in t.stakes && oracle in s.oracles && 1_000_000 <= step.lamports
              && t.stakes[oracle].lamports == (if oracle in s.stakes then s.stakes[oracle].lamports else 0) + step.lamports
              && (t.stakes[oracle].slashed <==> oracle in s.stakes && s.stakes[oracle].slashed)
            else if step.SlashStep? && step.oracle == oracle && Attempt(s, step).Ok? then
              oracle in t.stakes && t.stakes[oracle].lamports == 0 && t.stakes[oracle].slashed && step.isGovernance
            else
              (oracle in t.stakes <==> oracle in s.stakes) && (oracle in s.stakes ==> t.stakes[oracle] == s.stakes[oracle])
  {
  }

  /** The other instructions, each by whom and when: the registry by its administrator up to a hundred oracles, the
      quorum once by the registry's authority and then by its own, with a threshold from 2 to 100, and a slash by
      governance, once, of a deposit that is not empty. */
  lemma {:induction false} AdministrationIff(s: State, oracle: Key, granted: bool, signer: Key, required: bool, threshold: U8, reward: U64)
    ensures AddOracle(s, oracle, granted).Ok? <==> granted && oracle !in s.oracles && |s.oracles| < 100
    ensures RemoveOracle(s, oracle, granted).Ok? <==> granted && oracle in s.oracles
    ensures SlashOracle(s, oracle, granted).Ok? <==>
              granted && oracle in s.stakes && !s.stakes[oracle].slashed && 0 < s.stakes[oracle].lamports
    ensures InitQuorum(s, signer, granted, required, threshold, reward).Ok? <==> granted && s.config.None? && 2 <= threshold <= 100
    ensures SetQuorum(s, signer, required, threshold, reward).Ok? <==>
              s.config.Some? && s.config.value.authority == signer && 2 <= threshold <= 100
    ensures forall t :: InitQuorum(s, signer, granted, required, threshold, reward) == Ok(t) ||
                        SetQuorum(s, signer, required, threshold, reward) == Ok(t) ==>
              t == s.(config := Some(Config(signer, required, threshold, reward)))
  {
  }

  lemma {:induction false} FinalStep(s: State, step: Step, report: Report)
    requires report in s.attestations && 1 <= s.attestations[report].votes
    ensures var t := Next(s, step);
            && report in t.attestations && t.attestations[report].hash == s.attestations[report].hash
            && (s.attestations[report].finalized ==> t.attestations[report].finalized)
  {
  }

  /** Once final, always final; and the hash fixed by the first vote never changes. */
  lemma {:induction false} FinalizedStays(before: seq<Step>, after: seq<Step>, report: Report)
    requires report in Run(before).attestations
    ensures report in Run(before + after).attestations
    ensures Run(before + after).attestations[report].hash == Run(before).attestations[report].hash
    ensures Run(before).attestations[report].finalized ==> Run(before + after).attestations[report].finalized
    decreases |after|
  {
    if after == [] {
      assert before + after == before;
    } else {
      var shorter := before + after[..|after| - 1];
      FinalizedStays(before, after[..|after| - 1], report);
      RunKeeps(shorter);
      assert AttestationOk(Run(shorter), report);
      FinalStep(Run(shorter), after[|after| - 1], report);
      assert (before + after)[..|before + after| - 1] == shorter;
    }
  }

  // ------------------------------------------------------------- slashing and rewards

  lemma {:induction false} SlashedStep(s: State, step: Step, key: VoteKey)
    requires key.oracle in s.stakes && s.stakes[key.oracle].slashed && key !in s.votes
    ensures var t := Next(s, step); key.oracle in t.stakes && t.stakes[key.oracle].slashed && key !in t.votes
  {
  }

  /** A slashed oracle never votes again, whatever it deposits afterwards. */
  lemma {:induction false} SlashedNeverVotes(before: seq<Step>, after: seq<Step>, key: VoteKey)
    requires key.oracle in Run(before).stakes && Run(before).stakes[key.oracle].slashed
    requires key !in Run(before).votes
    ensures key !in Run(before + after).votes
    ensures key.oracle in Run(before + after).stakes && Run(before + after).stakes[key.oracle].slashed
    decreases |after|
  {
    if after == [] {
      assert before + after == before;
    } else {
      var shorter := before + after[..|after| - 1];
      SlashedNeverVotes(before, after[..|after| - 1], key);
      SlashedStep(Run(shorter), after[|after| - 1], key);
      assert (before + after)[..|before + after| - 1] == shorter;
    }
  }

  /** How often a run pays for one vote. */
  function Payments(steps: seq<Step>, key: VoteKey): nat {
    if steps == [] then 0
    else
      var before, step := steps[..|steps| - 1], steps[|steps| - 1];
      Payments(before, key) + if step.ClaimStep? && step.key == key && Attempt(Run(before), step).Ok? then 1 else 0
  }

  predicate Paid(s: State, key: VoteKey) {
    key in s.votes && s.votes[key].rewardClaimed
  }

  /** A payment is exactly a step from unpaid to paid, and needs a final attestation. */
  lemma {:induction false} PaidStep(s: State, step: Step, key: VoteKey)
    ensures Paid(s, key) ==> Paid(Next(s, step), key)
    ensures (step.ClaimStep? && step.key == key && Attempt(s, step).Ok?) <==> (!Paid(s, key) && Paid(Next(s, step), key))
    ensures !Paid(s, key) && Paid(Next(s, step), key) ==>
      key.report in Next(s, step).attestations && Next(s, step).attestations[key.report].finalized
  {
  }

  /** Each vote is paid at most once. */
  lemma {:induction false} PaidAtMostOnce(steps: seq<Step>, key: VoteKey)
    ensures Payments(steps, key) == if Paid(Run(steps), key) then 1 else 0
  {
    if steps == [] {
    } else {
      PaidAtMostOnce(steps[..|steps| - 1], key);
      PaidStep(Run(steps[..|steps| - 1]), steps[|steps| - 1], key);
    }
  }

  /** Only votes of finalized attestations are paid. */
  lemma {:induction false} PaidIsFinal(steps: seq<Step>, key: VoteKey)
    requires Paid(Run(steps), key)
    ensures key.report in Run(steps).attestations && Run(steps).attestations[key.report].finalized
  {
    if steps == [] {
    } else {
      var before, step := steps[..|steps| - 1], steps[|steps| - 1];
      PaidStep(Run(before), step, key);
      if Paid(Run(before), key) {
        PaidIsFinal(before, key);
        FinalizedStays(before, [step], key.report);
        assert before + [step] == steps;
      }
    }
  }

  /** A vote is payable exactly when it is recorded, its attestation is final, the run has not paid it yet,
      and the fund covers a reward above 0; its hash plays no part. */
  lemma {:induction false} PayableIff(steps: seq<Step>, key: VoteKey, fund: U64)
    ensures var s := Run(steps);
            ClaimReward(s, key, fund).Ok? <==>
              && key in s.votes && key.report in s.attestations && s.attestations[key.report].finalized
              && Payments(steps, key) == 0
              && s.config.Some? && 0 < s.config.value.rewardPerVote <= fund
    ensures key in Run(steps).votes ==> key.report in Run(steps).attestations
  {
    RunKeeps(steps);
    PaidAtMostOnce(steps, key);
  }

  /** An oracle that votes against a final attestation is entitled to the reward as soon as its vote stands,
      although the vote counts for nothing. */
  lemma {:induction false} ContradictionIsPayable(
    steps: seq<Step>, report: Report, oracle: Key, hash: ProofHash, signed: bool, configGiven: bool, now: Time, fund: U64)
    requires var s := Run(steps);
             && Submit(s, report, oracle, hash, signed, configGiven, now).Ok?
             && report in s.attestations && s.attestations[report].finalized && s.attestations[report].hash != hash
             && s.config.Some? && 0 < s.config.value.rewardPerVote <= fund
    ensures var t := Run(steps + [SubmitStep(report, oracle, hash, signed, configGiven, now)]);
            && ClaimReward(t, VoteKey(report, oracle), fund).Ok?
            && t.attestations[report].votes == Run(steps).attestations[report].votes
            && t.attestations[report].hash != t.votes[VoteKey(report, oracle)].hash
  {
    RunKeeps(steps);
    assert AttestationOk(Run(steps), report);
    RunSnoc(steps, SubmitStep(report, oracle, hash, signed, configGiven, now));
  }

  // ------------------------------------------------------------- the program

  /** The registry, deposits, votes and attestations, updated in place by the instructions. */
  class QuorumProgram {
    var oracles: seq<Key>
    var stakes: map<Key, Stake>
    var attestations: map<Report, Attestation>
    var votes: map<VoteKey, Vote>
    var config: Option<Config>

    function Accounts(): State
      reads this
    {
      State(oracles, stakes, attestations, votes, config)
    }

    constructor ()
      ensures Accounts() == Initial()
    {
      oracles, stakes, attestations, votes, config := [], map[], map[], map[], None;
    }

    method Add(oracle: Key, isAdmin: bool) returns (r: Result<()>)
      modifies this
      ensures Commits(AddOracle(old(Accounts()), oracle, isAdmin), old(Accounts()), Accounts(), r)
    {
      var present := oracle in oracles;
      :- Need(isAdmin, Unauthorized);
      :- Need(!present, AlreadyExists);
      :- Need(|oracles| < MAX_ORACLES, InvalidParameter);
      oracles := oracles + [oracle];
      r := Ok(());
    }

    /** `remove_oracle`: the first position of the key, then the list without it. */
    method Remove(oracle: Key, isAdmin: bool) returns (r: Result<()>)
      modifies this
      ensures Commits(RemoveOracle(old(Accounts()), oracle, isAdmin), old(Accounts()), Accounts(), r)
    {
      var index := 0;
      :- Need(isAdmin, Unauthorized);
      while index < |oracles| && oracles[index] != oracle
        invariant 0 <= index <= |oracles| && oracle !in oracles[..index]
      {
        index := index + 1;
      }
      assert oracles == oracles[..index] + oracles[index..];
      :- Need(index < |oracles|, NotFound);
      WithoutAt(oracles, index, oracle);
      oracles := oracles[..index] + oracles[index + 1..];
      r := Ok(());
    }

    method Deposit(oracle: Wallet, lamports: U64, now: Time) returns (r: Result<()>)
      modifies this
      ensures Commits(StakeOracle(old(Accounts()), oracle, lamports, now), old(Accounts()), Accounts(), r)
    {
      var present := oracle in oracles;
      :- Need(present, UntrustedOracle);
      :- Need(lamports >= MIN_STAKE, InsufficientStake);
      var stake := Stake(0, now, false);
      if oracle in stakes {
        stake := stakes[oracle];
      }
      :- Need(stake.lamports + lamports <= U64_MAX, ArithmeticOverflow);
      stakes := stakes[oracle := stake.(lamports := stake.lamports + lamports)];
      r := Ok(());
    }

    method Slash(oracle: Key, isGovernance: bool) returns (r: Result<()>)
      modifies this
      ensures Commits(SlashOracle(old(Accounts()), oracle, isGovernance), old(Accounts()), Accounts(), r)
    {
      var known := oracle in stakes;
      :- Need(known, AccountMissing);
      var stake := stakes[oracle];
      :- Need(!stake.slashed, Unauthorized);
      :- Need(isGovernance, Unauthorized);
      :- Need(stake.lamports > 0, NothingToClaim);
      stake := stake.(lamports := 0);
      stake := stake.(slashed := true);
      stakes := stakes[oracle := stake];
      r := Ok(());
    }

    method InitOracleQuorum(authority: Key, isRegistryAuthority: bool, required: bool, threshold: U8, reward: U64)
      returns (r: Result<()>)
      modifies this
      ensures Commits(InitQuorum(old(Accounts()), authority, isRegistryAuthority, required, threshold, reward),
                      old(Accounts()), Accounts(), r)
    {
      var valid := 2 <= threshold <= MAX_ORACLES;
      :- Need(config.None?, AccountInUse);
      :- Need(isRegistryAuthority, Unauthorized);
      :- Need(valid, InvalidQuorumThreshold);
      config := Some(Config(authority, required, threshold, reward));
      r := Ok(());
    }

    method SetOracleQuorum(signer: Key, required: bool, threshold: U8, reward: U64) returns (r: Result<()>)
      modifies this
      ensures Commits(SetQuorum(old(Accounts()), signer, required, threshold, reward), old(Accounts()), Accounts(), r)
    {
      var valid := 2 <= threshold <= MAX_ORACLES;
      :- Need(config.Some?, AccountMissing);
      :- Need(config.value.authority == signer, Unauthorized);
      :- Need(valid, InvalidQuorumThreshold);
      config := Some(Config(config.value.authority, required, threshold, reward));
      r := Ok(());
    }

    method CountVote(before: Attestation, report: Report, hash: ProofHash, now: Time) returns (attestation: Attestation)
      ensures attestation == ApplyVote(before, report, hash, now)
    {
      attestation := before;
      if attestation.votes == 0 {
        attestation := Attestation(report.device, report.nonce, hash, 1, before.finalized, before.conflict, now);
      } else if attestation.hash == hash {
        attestation := attestation.(votes := Min(255, attestation.votes + 1));
      } else {
        attestation := attestation.(conflict := true);
      }
    }

    method SubmitAttestation(report: Report, oracle: Key, hash: ProofHash, signed: bool, configGiven: bool, now: Time)
      returns (r: Result<()>)
      modifies this
      ensures Commits(Submit(old(Accounts()), report, oracle, hash, signed, configGiven, now), old(Accounts()), Accounts(), r)
    {
      var key := VoteKey(report, oracle);
      :- Need(key !in votes, AccountInUse);
      :- Need(oracle in oracles, UntrustedOracle);
      :- Need(oracle in stakes, AccountMissing);
      :- Need(!stakes[oracle].slashed, Unauthorized);
      :- Need(configGiven ==> config.Some?, AccountMissing);
      :- Need(report.device != NO_KEY, InvalidParameter);
      :- Need(hash != ZeroHash, InvalidLeafHash);
      :- Need(signed, Ed25519VerificationFailed);
      var attestation := BLANK;
      if report in attestations {
        attestation := attestations[report];
      }
      votes := votes[key := Vote(oracle, hash, now, false)];
      attestation := CountVote(attestation, report, hash, now);
      var threshold := DEFAULT_THRESHOLD;
      if configGiven {
        threshold := config.value.threshold;
      }
      if attestation.votes >= threshold {
        attestation := attestation.(finalized := true);
      }
      attestations := attestations[report := attestation];
      r := Ok(());
    }

    /** `claim_oracle_reward`; `paid` is what the staking fund, holding `fund`, must transfer. */
    method Claim(key: VoteKey, fund: U64) returns (r: Result<()>, paid: U64)
      modifies this
      ensures Commits(ClaimReward(old(Accounts()), key, fund), old(Accounts()), Accounts(), r)
      ensures paid == if r.Ok? then config.value.rewardPerVote else 0
    {
      paid := 0;
      :- Need(key in votes && key.report in attestations, AccountMissing);
      :- Need(config.Some?, AccountMissing);
      :- Need(attestations[key.report].finalized, AttestationNotFinalized);
      :- Need(!votes[key].rewardClaimed, AlreadyClaimed);
      :- Need(config.value.rewardPerVote > 0, NothingToClaim);
      :- Need(config.value.rewardPerVote <= fund, InsufficientFunds);
      paid := config.value.rewardPerVote;
      votes := votes[key := votes[key].(rewardClaimed := true)];
      r := Ok(());
    }
  }
}
