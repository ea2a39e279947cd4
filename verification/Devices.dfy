/** The device lifecycle: registration, claiming, the owner's state changes, revocation and key
    rotation, with the part of a mint that touches a device record. */
module Devices {
  import opened Arithmetic
  import opened MapSums
  import opened Protocol

  const MAX_DEVICES_PER_OWNER: nat := 100
  const TIER_MONTH: nat := 30 * 24 * 60 * 60

  datatype DeviceState =
    Unregistered | Registered | Claimed | Provisioned | Active | Quarantine | Maintenance | Revoked
  {
    predicate CanBecome(target: DeviceState) {
      match (this, target)
      case (Unregistered, Registered) => true
      case (Registered, Claimed) => true
      case (Claimed, Provisioned) => true
      case (Provisioned, Active) => true
      case (Active, Quarantine) => true
      case (Active, Maintenance) => true
      case (Active, Revoked) => true
      case (Quarantine, Active) => true
      case (Quarantine, Maintenance) => true
      case (Quarantine, Revoked) => true
      case (Maintenance, Active) => true
      case (Maintenance, Revoked) => true
      case _ => false
    }
  }

  datatype Tier = Basic | Verified | Industrial | Institutional

  datatype Producer = Producer(
    authority: Key, deviceId: Key, nonce: U64, energy: U64, timestamp: int, state: DeviceState,
    tier: Tier, monthEnergy: U64, monthStart: Time, claimNonce: U64, claimedAt: Time,
    revoked: bool, rotatedTo: Key)
  {
    predicate Live() {
      rotatedTo == NO_KEY
    }
  }

  datatype OwnerDevices = OwnerDevices(totalClaimed: U64, activeCount: U64)

  /** Where a record stands: the key its chain of rotations began with, and how many rotations ago. */
  datatype Mark = Mark(chain: Key, position: nat)

  datatype Minted = Minted(device: Key, nonce: U64, energy: U64, at: Time)

  /** The accounts, and four records of the past the program does not keep: where each key stands in
      its chain, every accepted report, where in that log each record's month began, and how often an
      owner's counter was left behind. */
  datatype State = State(
    producers: map<Key, Producer>, owners: map<Key, OwnerDevices>, totalEnergy: U128,
    marks: map<Key, Mark>, log: seq<Minted>, began: map<Key, nat>, stranded: map<Key, nat>)

  function Initial(): State {
    State(map[], map[], 0, map[], [], map[], map[])
  }

  // ------------------------------------------------------------- the handlers

  function FreshProducer(device: Key): Producer {
    Producer(NO_KEY, device, 0, 0, 0, Registered, Basic, 0, 0, 0, 0, false, NO_KEY)
  }

  function Register(s: State, device: Key, signed: bool, at: int, now: Time): Result<State> {
    var latest := now + MAX_CLOCK_SKEW;
    :- Need(device !in s.producers, AccountInUse);
    :- Need(device != NO_KEY, InvalidParameter);
    :- Need(0 < at, InvalidParameter);
    :- Need(at <= latest, FutureTimestamp);
    :- Need(signed, Ed25519VerificationFailed);
    Ok(s.(producers := s.producers[device := FreshProducer(device)],
          marks := s.marks[device := Mark(device, 0)], began := s.began[device := |s.log|]))
  }

  function OwnerOrEmpty(s: State, owner: Key): OwnerDevices {
    if owner in s.owners then s.owners[owner] else OwnerDevices(0, 0)
  }

  function Claim(s: State, device: Key, owner: Wallet, signed: bool, nonce: U64, at: int, now: Time): Result<State> {
    var latest := now + MAX_CLOCK_SKEW;
    :- Need(device in s.producers, AccountMissing);
    var p := s.producers[device];
    var o := OwnerOrEmpty(s, owner);
    :- Need(!p.revoked, DeviceRevoked);
    :- Need(p.state == Registered, InvalidDeviceState);
    :- Need(p.authority == NO_KEY, DeviceAlreadyClaimed);
    :- Need(0 < at, InvalidParameter);
    :- Need(at <= latest, FutureTimestamp);
    :- Need(p.claimNonce < nonce, InvalidNonce);
    :- Need(signed, Ed25519VerificationFailed);
    :- Need(o.totalClaimed < MAX_DEVICES_PER_OWNER, DeviceLimitReached);
    Ok(s.(producers := s.producers[device := p.(authority := owner, state := Claimed, claimNonce := nonce, claimedAt := now)],
          owners := s.owners[owner := o.(totalClaimed := o.totalClaimed + 1)]))
  }

  /** What all the owner's own transitions check before they look at the state. */
  function Owned(s: State, device: Key, signer: Wallet): Result<Producer> {
    var known := device in s.producers;
    :- Need(known, AccountMissing);
    var p := s.producers[device];
    :- Need(p.authority == signer, Unauthorized);
    Ok(p)
  }

  function Provision(s: State, device: Key, signer: Wallet): Result<State> {
    var p :- Owned(s, device, signer);
    :- Need(!p.revoked, DeviceRevoked);
    :- Need(p.state.CanBecome(Provisioned), InvalidStateTransition);
    Ok(s.(producers := s.producers[device := p.(state := Provisioned)]))
  }

  /** `activate_device` and `release_from_quarantine`, which check and do the same. */
  function Activate(s: State, device: Key, signer: Wallet): Result<State> {
    var p :- Owned(s, device, signer);
    :- Need(signer in s.owners, AccountMissing);
    var o := s.owners[signer];
    :- Need(!p.revoked, DeviceRevoked);
    :- Need(p.state.CanBecome(Active), InvalidStateTransition);
    :- Need(o.activeCount < MAX_DEVICES_PER_OWNER, DeviceLimitReached);
    Ok(s.(producers := s.producers[device := p.(state := Active)],
          owners := s.owners[signer := o.(activeCount := o.activeCount + 1)]))
  }

  function QuarantineDevice(s: State, device: Key, signer: Wallet): Result<State> {
    var p :- Owned(s, device, signer);
    :- Need(signer in s.owners, AccountMissing);
    var o := s.owners[signer];
    :- Need(!p.revoked, DeviceRevoked);
    :- Need(p.state.CanBecome(Quarantine), InvalidStateTransition);
    Ok(s.(producers := s.producers[device := p.(state := Quarantine)],
          owners := s.owners[signer := o.(activeCount := SatSub(o.activeCount, 1))]))
  }

  function Maintain(s: State, device: Key, signer: Wallet): Result<State> {
    var p :- Owned(s, device, signer);
    :- Need(signer in s.owners, AccountMissing);
    var o := s.owners[signer];
    :- Need(!p.revoked, DeviceRevoked);
    :- Need(p.state.CanBecome(Maintenance), InvalidStateTransition);
    Ok(s.(producers := s.producers[device := p.(state := Maintenance)],
          owners := if p.state == Active then s.owners[signer := o.(activeCount := SatSub(o.activeCount, 1))] else s.owners))
  }

  /** The protocol administrator may act where it supplies the vault account. */
  predicate Entitled(p: Producer, signer: Wallet, admin: Key, vaultGiven: bool) {
    p.authority == signer || (vaultGiven && admin == signer)
  }

  function Strand(s: State, owner: Key): map<Key, nat> {
    s.stranded[owner := At(s.stranded, (n: nat) => n, owner) + 1]
  }

  /** `revoke_device`; the owner's counter account is optional. */
  function Revoke(s: State, device: Key, signer: Wallet, admin: Key, vaultGiven: bool, counterGiven: bool): Result<State> {
    var known := device in s.producers;
    :- Need(known, AccountMissing);
    var p := s.producers[device];
    :- Need(counterGiven ==> p.authority in s.owners, AccountMissing);
    :- Need(!p.revoked, DeviceAlreadyRevoked);
    :- Need(Entitled(p, signer, admin, vaultGiven), Unauthorized);
    :- Need(p.state != Revoked, DeviceAlreadyRevoked);
    var producers := s.producers[device := p.(state := Revoked, revoked := true)];
    if p.state == Active && counterGiven then
      var o := s.owners[p.authority];
      Ok(s.(producers := producers, owners := s.owners[p.authority := o.(activeCount := SatSub(o.activeCount, 1))]))
    else if p.state == Active then
      Ok(s.(producers := producers, stranded := Strand(s, p.authority)))
    else
      Ok(s.(producers := producers))
  }

  /** Where in the log the month of a record began. */
  function BeganAt(s: State, device: Key): nat {
    if device in s.began then s.began[device] else 0
  }

  function Rotate(s: State, device: Key, newDevice: Key, signer: Wallet, admin: Key, vaultGiven: bool,
                  signed: bool, nonce: U64, at: int, now: Time): Result<State>
  {
    var latest := now + MAX_CLOCK_SKEW;
    :- Need(device in s.producers, AccountMissing);
    var prior := s.producers[device];
    :- Need(newDevice != NO_KEY, InvalidParameter);
    :- Need(newDevice !in s.producers, AccountInUse);
    :- Need(!prior.revoked, DeviceAlreadyRevoked);
    :- Need(prior.state != Revoked, DeviceAlreadyRevoked);
    :- Need(Entitled(prior, signer, admin, vaultGiven), Unauthorized);
    :- Need(0 < at, InvalidParameter);
    :- Need(at <= latest, FutureTimestamp);
    :- Need(prior.claimNonce < nonce, InvalidNonce);
    :- Need(signed, Ed25519VerificationFailed);
    var successor := prior.(deviceId := newDevice, claimNonce := nonce, claimedAt := now, revoked := false, rotatedTo := NO_KEY);
    var retired := prior.(state := Revoked, revoked := true, rotatedTo := newDevice);
    var mark := if device in s.marks then s.marks[device] else Mark(device, 0);
    Ok(s.(producers := s.producers[newDevice := successor][device := retired],
          marks := s.marks[newDevice := Mark(mark.chain, mark.position + 1)],
          began := s.began[newDevice := BeganAt(s, device)]))
  }

  /** `set_device_tier`: a new tier starts a new month. */
  function SetTier(s: State, device: Key, tier: Tier, signer: Wallet, admin: Key, now: Time): Result<State> {
    var known := device in s.producers;
    :- Need(admin == signer, Unauthorized);
    :- Need(known, AccountMissing);
    var p := s.producers[device];
    Ok(s.(producers := s.producers[device := p.(tier := tier, monthEnergy := 0, monthStart := now)],
          began := s.began[device := |s.log|]))
  }

  predicate MonthOver(p: Producer, now: Time) {
    p.monthStart == 0 || TIER_MONTH <= now - p.monthStart
  }

  function RollMonth(p: Producer, now: Time): Producer {
    if MonthOver(p, now) then p.(monthStart := now, monthEnergy := 0) else p
  }

  /** What `mint_energy` does to a device record and to the vault's energy total. */
  function Accept(s: State, device: Key, nonce: U64, energy: U64, verifiedAt: int, now: Time): Result<State> {
    var total := s.totalEnergy + energy;
    :- Need(device in s.producers, AccountMissing);
    var p := RollMonth(s.producers[device], now);
    :- Need(!p.revoked, DeviceRevoked);
    :- Need(p.nonce < nonce, InvalidNonce);
    :- Need(p.energy + energy <= U64_MAX, ArithmeticOverflow);
    :- Need(p.monthEnergy + energy <= U64_MAX, ArithmeticOverflow);
    :- Need(total <= U128_MAX, ArithmeticOverflow);
    Ok(s.(producers := s.producers[device := p.(nonce := nonce, timestamp := verifiedAt,
                                                energy := p.energy + energy, monthEnergy := p.monthEnergy + energy)],
          totalEnergy := total,
          log := s.log + [Minted(device, nonce, energy, now)],
          began := if MonthOver(s.producers[device], now) then s.began[device := |s.log|] else s.began))
  }

  // ------------------------------------------------------------- runs

  datatype Step =
    | RegisterStep(device: Key, signed: bool, at: int, now: Time)
    | ClaimStep(device: Key, owner: Wallet, signed: bool, nonce: U64, at: int, now: Time)
    | ProvisionStep(device: Key, signer: Wallet)
    | ActivateStep(device: Key, signer: Wallet)
    | QuarantineStep(device: Key, signer: Wallet)
    | MaintainStep(device: Key, signer: Wallet)
    | RevokeStep(device: Key, signer: Wallet, admin: Key, vaultGiven: bool, counterGiven: bool)
    | RotateStep(device: Key, newDevice: Key, signer: Wallet, admin: Key, vaultGiven: bool, signed: bool, nonce: U64, at: int, now: Time)
    | SetTierStep(device: Key, tier: Tier, signer: Wallet, admin: Key, now: Time)
    | AcceptStep(device: Key, nonce: U64, energy: U64, verifiedAt: int, now: Time)

  function Attempt(s: State, step: Step): Result<State> {
    match step
    case RegisterStep(d, signed, at, now) => Register(s, d, signed, at, now)
    case ClaimStep(d, owner, signed, nonce, at, now) => Claim(s, d, owner, signed, nonce, at, now)
    case ProvisionStep(d, signer) => Provision(s, d, signer)
    case ActivateStep(d, signer) => Activate(s, d, signer)
    case QuarantineStep(d, signer) => QuarantineDevice(s, d, signer)
    case MaintainStep(d, signer) => Maintain(s, d, signer)
    case RevokeStep(d, signer, admin, vaultGiven, counterGiven) => Revoke(s, d, signer, admin, vaultGiven, counterGiven)
    case RotateStep(d, n, signer, admin, vaultGiven, signed, nonce, at, now) =>
      Rotate(s, d, n, signer, admin, vaultGiven, signed, nonce, at, now)
    case SetTierStep(d, tier, signer, admin, now) => SetTier(s, d, tier, signer, admin, now)
    case AcceptStep(d, nonce, energy, verifiedAt, now) => Accept(s, d, nonce, energy, verifiedAt, now)
  }

  function Run(steps: seq<Step>): State {
    if steps == [] then Initial()
    else
      var before := Run(steps[..|steps| - 1]);
      Settle(Attempt(before, steps[|steps| - 1]), before)
  }

  // ------------------------------------------------------------- the invariant

  ghost predicate RecordOk(s: State, k: Key) {
    k in s.producers && k in s.marks &&
    var p := s.producers[k];
    && p.deviceId == k
    && s.marks[k].chain in s.producers
    && (p.revoked <==> p.state == Revoked)
    && p.state != Unregistered
    && (p.authority == NO_KEY ==> p.state == Registered || p.state == Revoked)
    && (p.authority != NO_KEY ==> p.state != Registered && p.authority in s.owners)
    && (!p.Live() ==> p.revoked && p.rotatedTo in s.producers && p.rotatedTo in s.marks
                      && s.marks[p.rotatedTo] == Mark(s.marks[k].chain, s.marks[k].position + 1))
  }

  /** Records of one chain stand in different places, and only the last of them is live. */
  ghost predicate PairOk(s: State, a: Key, b: Key)
    requires a in s.producers && a in s.marks && b in s.marks
  {
    s.marks[a].chain == s.marks[b].chain && a != b ==>
      && s.marks[a].position != s.marks[b].position
      && (s.marks[a].position < s.marks[b].position ==> !s.producers[a].Live())
  }

  ghost predicate Linked(s: State) {
    && s.marks.Keys == s.producers.Keys && NO_KEY !in s.producers
    && (forall k {:trigger RecordOk(s, k)} :: k in s.producers ==> RecordOk(s, k))
    && (forall a, b {:trigger PairOk(s, a, b)} :: a in s.producers && b in s.producers ==> PairOk(s, a, b))
  }

  /** An accepted nonce is at most the nonce of its chain's live record. */
  ghost predicate LoggedBelow(s: State, e: Minted) {
    && e.device in s.marks
    && forall k :: k in s.producers && k in s.marks && s.producers[k].Live() && s.marks[k].chain == s.marks[e.device].chain
         ==> e.nonce <= s.producers[k].nonce
  }

  ghost predicate SameChain(s: State, a: Key, b: Key) {
    a in s.marks && b in s.marks && s.marks[a].chain == s.marks[b].chain
  }

  ghost predicate Logged(s: State) {
    && (forall i :: 0 <= i < |s.log| ==> LoggedBelow(s, s.log[i]))
    && (forall i, j :: 0 <= i < j < |s.log| && SameChain(s, s.log[i].device, s.log[j].device)
          ==> s.log[i].nonce < s.log[j].nonce)
  }

  function LiveEnergy(p: Producer): nat {
    if p.Live() then p.energy else 0
  }

  ghost predicate EnergyBalances(s: State) {
    s.totalEnergy == Sum(s.producers, LiveEnergy)
  }

  function ActiveOf(owner: Key): Producer -> nat {
    (p: Producer) => if p.authority == owner && p.state == Active then 1 else 0
  }

  /** An owner's devices that could still become active. */
  function IdleOf(owner: Key): Producer -> nat {
    (p: Producer) =>
      if p.authority == owner && p.state in {Claimed, Provisioned, Quarantine, Maintenance} then 1 else 0
  }

  function StrandedOf(s: State, owner: Key): nat {
    At(s.stranded, (n: nat) => n, owner)
  }

  ghost predicate CounterOk(s: State, owner: Key)
    requires owner in s.owners
  {
    var o := s.owners[owner];
    && o.activeCount == Sum(s.producers, ActiveOf(owner)) + StrandedOf(s, owner)
    && o.activeCount + Sum(s.producers, IdleOf(owner)) <= o.totalClaimed <= MAX_DEVICES_PER_OWNER
  }

  ghost predicate Counted(s: State) {
    && NO_KEY !in s.owners
    && (forall owner {:trigger CounterOk(s, owner)} :: owner in s.owners ==> CounterOk(s, owner))
    && (forall owner :: owner in s.stranded ==> owner in s.owners)
  }

  ghost predicate Inv(s: State) {
    Linked(s) && Logged(s) && EnergyBalances(s) && Counted(s)
  }

  // ------------------------------------------------------------- one-record edits

  /** `t` differs from `s` in the record of `k`, which keeps its links, and perhaps in the owners'
      counters and the log. */
  ghost predicate Reshaped(s: State, t: State, k: Key) {
    && k in s.producers && k in t.producers
    && t.producers == s.producers[k := t.producers[k]]
    && t.marks == s.marks
    && s.owners.Keys <= t.owners.Keys
    && RecordOk(t, k)
    && t.producers[k].rotatedTo == s.producers[k].rotatedTo
  }

  /** As well, the record keeps its nonce and energy. */
  ghost predicate Edited(s: State, t: State, k: Key) {
    && Reshaped(s, t, k)
    && t.log == s.log && t.totalEnergy == s.totalEnergy
    && t.producers[k].nonce == s.producers[k].nonce && t.producers[k].energy == s.producers[k].energy
  }

  lemma {:induction false} EditKeepsRecords(s: State, t: State, k: Key)
    requires Linked(s) && Reshaped(s, t, k)
    ensures forall j {:trigger RecordOk(t, j)} :: j in t.producers ==> RecordOk(t, j)
  {
    forall j {:trigger RecordOk(t, j)} | j in t.producers ensures RecordOk(t, j) {
      if j != k {
        assert RecordOk(s, j);
      }
    }
  }

  lemma {:induction false} EditKeepsPair(s: State, t: State, k: Key, a: Key, b: Key)
    requires k in s.producers && k in t.producers && t.producers == s.producers[k := t.producers[k]]
    requires t.marks == s.marks && t.producers[k].rotatedTo == s.producers[k].rotatedTo
    requires a in s.producers && a in s.marks && b in s.marks && PairOk(s, a, b)
    ensures PairOk(t, a, b)
  {
  }

  lemma {:induction false} EditKeepsLinks(s: State, t: State, k: Key)
    requires Linked(s) && Reshaped(s, t, k)
    ensures Linked(t)
  {
    EditKeepsRecords(s, t, k);
    forall a, b {:trigger PairOk(t, a, b)} | a in t.producers && b in t.producers ensures PairOk(t, a, b) {
      assert PairOk(s, a, b);
      EditKeepsPair(s, t, k, a, b);
    }
  }

  lemma {:induction false} EditKeepsLog(s: State, t: State, k: Key)
    requires Logged(s) && Edited(s, t, k)
    ensures Logged(t)
  {
    forall i | 0 <= i < |t.log| ensures LoggedBelow(t, t.log[i]) {
      assert LoggedBelow(s, s.log[i]);
    }
    forall i, j | 0 <= i < j < |t.log| && SameChain(t, t.log[i].device, t.log[j].device)
      ensures t.log[i].nonce < t.log[j].nonce
    {
      assert SameChain(s, s.log[i].device, s.log[j].device);
    }
  }

  lemma {:induction false} EditKeepsEnergy(s: State, t: State, k: Key)
    requires EnergyBalances(s) && Edited(s, t, k)
    ensures EnergyBalances(t)
  {
    SumUpdate(s.producers, LiveEnergy, k, t.producers[k]);
  }

  /** The owner whose devices the edited record counts among; counters of everyone else stand. */
  ghost predicate OnlyTouches(s: State, t: State, k: Key, owner: Key)
    requires k in s.producers && k in t.producers
  {
    && s.producers[k].authority in {NO_KEY, owner} && t.producers[k].authority in {NO_KEY, owner}
    && (forall o :: o in t.owners && o != owner ==> o in s.owners && t.owners[o] == s.owners[o])
    && (forall o :: o != owner ==> StrandedOf(t, o) == StrandedOf(s, o))
    && (forall o :: o in t.stranded ==> o in t.owners)
  }

  ghost predicate Settled(s: State, t: State, k: Key, owner: Key)
    requires k in s.producers && k in t.producers
  {
    owner in t.owners ==>
      var before, after, p, q := OwnerOrEmpty(s, owner), t.owners[owner], s.producers[k], t.producers[k];
      && owner != NO_KEY
      && after.activeCount + ActiveOf(owner)(p) + StrandedOf(s, owner)
         == before.activeCount + ActiveOf(owner)(q) + StrandedOf(t, owner)
      && after.activeCount + IdleOf(owner)(q) + before.totalClaimed
         <= before.activeCount + IdleOf(owner)(p) + after.totalClaimed
      && after.totalClaimed <= MAX_DEVICES_PER_OWNER
  }

  lemma {:induction false} NoDevicesYet(s: State, owner: Key)
    requires Linked(s) && owner !in s.owners && owner != NO_KEY
    ensures Sum(s.producers, ActiveOf(owner)) == 0 == Sum(s.producers, IdleOf(owner))
  {
    forall k | k in s.producers ensures ActiveOf(owner)(s.producers[k]) == 0 == IdleOf(owner)(s.producers[k]) {
      assert RecordOk(s, k);
    }
    SumOfZeros(s.producers, ActiveOf(owner));
    SumOfZeros(s.producers, IdleOf(owner));
  }

  lemma {:induction false} EditKeepsCounters(s: State, t: State, k: Key, owner: Key)
    requires Linked(s) && Counted(s) && Reshaped(s, t, k)
    requires OnlyTouches(s, t, k, owner) && Settled(s, t, k, owner)
    ensures Counted(t)
  {
    forall o | o in t.owners ensures CounterOk(t, o) {
      SumUpdate(s.producers, ActiveOf(o), k, t.producers[k]);
      SumUpdate(s.producers, IdleOf(o), k, t.producers[k]);
      if o in s.owners {
        assert CounterOk(s, o);
      } else {
        NoDevicesYet(s, o);
      }
    }
  }

  lemma {:induction false} EditKeepsInv(s: State, t: State, k: Key, owner: Key)
    requires Inv(s) && Edited(s, t, k) && OnlyTouches(s, t, k, owner) && Settled(s, t, k, owner)
    ensures Inv(t)
  {
    EditKeepsLinks(s, t, k);
    EditKeepsLog(s, t, k);
    EditKeepsEnergy(s, t, k);
    EditKeepsCounters(s, t, k, owner);
  }

  /** In a reachable state the counter covers every active device, and there is room for every idle one. */
  lemma {:induction false} CounterCovers(s: State, k: Key)
    requires Linked(s) && Counted(s) && k in s.producers && s.producers[k].authority != NO_KEY
    ensures var owner := s.producers[k].authority;
            && owner in s.owners
            && (s.producers[k].state == Active ==> 0 < s.owners[owner].activeCount)
            && (s.producers[k].state in {Claimed, Provisioned, Quarantine, Maintenance} ==>
                  s.owners[owner].activeCount < s.owners[owner].totalClaimed <= MAX_DEVICES_PER_OWNER)
  {
    var owner := s.producers[k].authority;
    assert RecordOk(s, k);
    assert CounterOk(s, owner);
    SumAtLeast(s.producers, ActiveOf(owner), k);
    SumAtLeast(s.producers, IdleOf(owner), k);
  }

  lemma {:induction false} ClaimKeeps(s: State, device: Key, owner: Wallet, signed: bool, nonce: U64, at: int, now: Time)
    requires Inv(s)
    ensures Inv(Settle(Claim(s, device, owner, signed, nonce, at, now), s))
  {
    var r := Claim(s, device, owner, signed, nonce, at, now);
    if r.Ok? {
      assert RecordOk(s, device);
      if owner in s.owners {
        assert CounterOk(s, owner);
      }
      EditKeepsInv(s, r.value, device, owner);
    }
  }

  lemma {:induction false} ProvisionKeeps(s: State, device: Key, signer: Wallet)
    requires Inv(s)
    ensures Inv(Settle(Provision(s, device, signer), s))
  {
    var r := Provision(s, device, signer);
    if r.Ok? {
      assert RecordOk(s, device);
      assert CounterOk(s, signer);
      EditKeepsInv(s, r.value, device, signer);
    }
  }

  lemma {:induction false} ActivateKeeps(s: State, device: Key, signer: Wallet)
    requires Inv(s)
    ensures Inv(Settle(Activate(s, device, signer), s))
  {
    var r := Activate(s, device, signer);
    if r.Ok? {
      assert RecordOk(s, device);
      CounterCovers(s, device);
      EditKeepsInv(s, r.value, device, signer);
    }
  }

  lemma {:induction false} QuarantineKeeps(s: State, device: Key, signer: Wallet)
    requires Inv(s)
    ensures Inv(Settle(QuarantineDevice(s, device, signer), s))
  {
    var r := QuarantineDevice(s, device, signer);
    if r.Ok? {
      assert RecordOk(s, device);
      CounterCovers(s, device);
      assert CounterOk(s, signer);
      EditKeepsInv(s, r.value, device, signer);
    }
  }

  lemma {:induction false} MaintainKeeps(s: State, device: Key, signer: Wallet)
    requires Inv(s)
    ensures Inv(Settle(Maintain(s, device, signer), s))
  {
    var r := Maintain(s, device, signer);
    if r.Ok? {
      assert RecordOk(s, device);
      CounterCovers(s, device);
      assert CounterOk(s, signer);
      EditKeepsInv(s, r.value, device, signer);
    }
  }

  lemma {:induction false} RevokeEdits(s: State, device: Key, signer: Wallet, admin: Key, vaultGiven: bool, counterGiven: bool)
    requires Linked(s) && Revoke(s, device, signer, admin, vaultGiven, counterGiven).Ok?
    ensures Edited(s, Revoke(s, device, signer, admin, vaultGiven, counterGiven).value, device)
  {
    assert RecordOk(s, device);
  }

  lemma {:induction false} RevokeTouches(s: State, device: Key, signer: Wallet, admin: Key, vaultGiven: bool, counterGiven: bool)
    requires Linked(s) && Counted(s) && Revoke(s, device, signer, admin, vaultGiven, counterGiven).Ok?
    ensures OnlyTouches(s, Revoke(s, device, signer, admin, vaultGiven, counterGiven).value, device, s.producers[device].authority)
  {
    assert RecordOk(s, device);
  }

  lemma {:induction false} RevokeKeeps(s: State, device: Key, signer: Wallet, admin: Key, vaultGiven: bool, counterGiven: bool)
    requires Inv(s)
    ensures Inv(Settle(Revoke(s, device, signer, admin, vaultGiven, counterGiven), s))
  {
    var r := Revoke(s, device, signer, admin, vaultGiven, counterGiven);
    if r.Ok? {
      var owner := s.producers[device].authority;
      RevokeEdits(s, device, signer, admin, vaultGiven, counterGiven);
      RevokeTouches(s, device, signer, admin, vaultGiven, counterGiven);
      if owner != NO_KEY {
        CounterCovers(s, device);
        assert CounterOk(s, owner);
      }
      EditKeepsInv(s, r.value, device, owner);
    }
  }

  lemma {:induction false} SetTierKeeps(s: State, device: Key, tier: Tier, signer: Wallet, admin: Key, now: Time)
    requires Inv(s)
    ensures Inv(Settle(SetTier(s, device, tier, signer, admin, now), s))
  {
    var r := SetTier(s, device, tier, signer, admin, now);
    if r.Ok? {
      var owner := s.producers[device].authority;
      assert RecordOk(s, device);
      if owner in s.owners {
        assert CounterOk(s, owner);
      }
      EditKeepsInv(s, r.value, device, owner);
    }
  }

  // ------------------------------------------------------------- registration

  lemma {:induction false} RegisterKeepsLinks(s: State, t: State, device: Key)
    requires Linked(s) && device !in s.producers && device != NO_KEY
    requires t.producers == s.producers[device := FreshProducer(device)]
    requires t.marks == s.marks[device := Mark(device, 0)] && t.owners == s.owners
    ensures Linked(t)
  {
    forall j {:trigger RecordOk(t, j)} | j in t.producers ensures RecordOk(t, j) {
      if j != device {
        assert RecordOk(s, j);
      }
    }
    forall a, b {:trigger PairOk(t, a, b)} | a in t.producers && b in t.producers ensures PairOk(t, a, b) {
      if a != device && b != device {
        assert PairOk(s, a, b);
      } else if a != device {
        assert RecordOk(s, a);
      } else if b != device {
        assert RecordOk(s, b);
      }
    }
  }

  lemma {:induction false} RegisterKeepsLog(s: State, t: State, device: Key)
    requires Linked(s) && Logged(s) && device !in s.producers
    requires t.producers == s.producers[device := FreshProducer(device)]
    requires t.marks == s.marks[device := Mark(device, 0)] && t.log == s.log
    ensures Logged(t)
  {
    forall i | 0 <= i < |t.log| ensures LoggedBelow(t, t.log[i]) {
      assert LoggedBelow(s, s.log[i]);
      assert RecordOk(s, s.log[i].device);
    }
    forall i, j | 0 <= i < j < |t.log| && SameChain(t, t.log[i].device, t.log[j].device)
      ensures t.log[i].nonce < t.log[j].nonce
    {
      assert LoggedBelow(s, s.log[i]) && LoggedBelow(s, s.log[j]);
      assert SameChain(s, s.log[i].device, s.log[j].device);
    }
  }

  lemma {:induction false} RegisterKeeps(s: State, device: Key, signed: bool, at: int, now: Time)
    requires Inv(s)
    ensures Inv(Settle(Register(s, device, signed, at, now), s))
  {
    var r := Register(s, device, signed, at, now);
    if r.Ok? {
      var t := r.value;
      RegisterKeepsLinks(s, t, device);
      RegisterKeepsLog(s, t, device);
      SumUpdate(s.producers, LiveEnergy, device, FreshProducer(device));
      forall o {:trigger CounterOk(t, o)} | o in t.owners ensures CounterOk(t, o) {
        assert CounterOk(s, o);
        SumUpdate(s.producers, ActiveOf(o), device, FreshProducer(device));
        SumUpdate(s.producers, IdleOf(o), device, FreshProducer(device));
      }
    }
  }

  // ------------------------------------------------------------- rotation

  /** `t` retires the live record of `k` in favour of a new one with the same nonce, energy and state. */
  ghost predicate Rotated(s: State, t: State, k: Key, n: Key) {
    && k in s.producers && n !in s.producers && n != NO_KEY && k in s.marks
    && k in t.producers && n in t.producers
    && (var p, retired, successor := s.producers[k], t.producers[k], t.producers[n];
        && t.producers == s.producers[n := successor][k := retired]
        && t.marks == s.marks[n := Mark(s.marks[k].chain, s.marks[k].position + 1)]
        && p.Live() && !p.revoked
        && retired == p.(state := Revoked, revoked := true, rotatedTo := n)
        && successor.deviceId == n && !successor.revoked && successor.Live()
        && successor.state == p.state && successor.authority == p.authority
        && successor.nonce == p.nonce && successor.energy == p.energy)
    && t.owners == s.owners && t.stranded == s.stranded && t.log == s.log && t.totalEnergy == s.totalEnergy
  }

  lemma {:induction false} RotateKeepsLinks(s: State, t: State, k: Key, n: Key)
    requires Linked(s) && Rotated(s, t, k, n)
    ensures Linked(t)
  {
    assert RecordOk(s, k);
    forall j {:trigger RecordOk(t, j)} | j in t.producers ensures RecordOk(t, j) {
      if j != n {
        assert RecordOk(s, j);
      }
    }
    forall a, b {:trigger PairOk(t, a, b)} | a in t.producers && b in t.producers ensures PairOk(t, a, b) {
      if a != n && b != n {
        assert PairOk(s, a, b);
      } else if a != n {
        assert PairOk(s, k, a) && PairOk(s, a, k);
      } else if b != n {
        assert PairOk(s, k, b) && PairOk(s, b, k);
      }
    }
  }

  lemma {:induction false} RotateKeepsLog(s: State, t: State, k: Key, n: Key)
    requires Linked(s) && Logged(s) && Rotated(s, t, k, n)
    ensures Logged(t)
  {
    forall i | 0 <= i < |t.log| ensures LoggedBelow(t, t.log[i]) {
      assert LoggedBelow(s, s.log[i]);
    }
    forall i, j | 0 <= i < j < |t.log| && SameChain(t, t.log[i].device, t.log[j].device)
      ensures t.log[i].nonce < t.log[j].nonce
    {
      assert LoggedBelow(s, s.log[i]) && LoggedBelow(s, s.log[j]);
      assert SameChain(s, s.log[i].device, s.log[j].device);
    }
  }

  /** Writing the successor and retiring the old record leaves every sum in which they weigh the same. */
  lemma {:induction false} RotateSum(s: State, t: State, k: Key, n: Key, f: Producer -> nat)
    requires Rotated(s, t, k, n)
    requires f(t.producers[n]) == f(s.producers[k]) && f(t.producers[k]) == 0
    ensures Sum(t.producers, f) == Sum(s.producers, f)
  {
    SumUpdate(s.producers, f, n, t.producers[n]);
    SumUpdate(s.producers[n := t.producers[n]], f, k, t.producers[k]);
  }

  lemma {:induction false} RotateKeeps(s: State, device: Key, newDevice: Key, signer: Wallet, admin: Key, vaultGiven: bool,
                    signed: bool, nonce: U64, at: int, now: Time)
    requires Inv(s)
    ensures Inv(Settle(Rotate(s, device, newDevice, signer, admin, vaultGiven, signed, nonce, at, now), s))
  {
    var r := Rotate(s, device, newDevice, signer, admin, vaultGiven, signed, nonce, at, now);
    if r.Ok? {
      var t := r.value;
      assert RecordOk(s, device);
      assert Rotated(s, t, device, newDevice);
      RotateKeepsLinks(s, t, device, newDevice);
      RotateKeepsLog(s, t, device, newDevice);
      RotateSum(s, t, device, newDevice, LiveEnergy);
      forall o {:trigger CounterOk(t, o)} | o in t.owners ensures CounterOk(t, o) {
        assert CounterOk(s, o);
        RotateSum(s, t, device, newDevice, ActiveOf(o));
        RotateSum(s, t, device, newDevice, IdleOf(o));
      }
    }
  }

  // ------------------------------------------------------------- accepted reports

  lemma {:induction false} AcceptKeepsLog(s: State, t: State, k: Key, e: Minted)
    requires Linked(s) && Logged(s) && Reshaped(s, t, k)
    requires s.producers[k].Live() && e.device == k
    requires s.producers[k].nonce < e.nonce == t.producers[k].nonce && t.log == s.log + [e]
    ensures Logged(t)
  {
    assert RecordOk(s, k);
    forall i | 0 <= i < |s.log| ensures LoggedBelow(t, s.log[i]) {
      assert LoggedBelow(s, s.log[i]);
    }
    assert LoggedBelow(t, e) by {
      forall j | j in t.producers && j in t.marks && t.producers[j].Live() && t.marks[j].chain == t.marks[k].chain
        ensures j == k
      {
        assert PairOk(s, j, k) && PairOk(s, k, j);
      }
    }
    forall i, j | 0 <= i < j < |t.log| && SameChain(t, t.log[i].device, t.log[j].device)
      ensures t.log[i].nonce < t.log[j].nonce
    {
      assert LoggedBelow(s, s.log[i]);
      if j < |s.log| {
        assert SameChain(s, s.log[i].device, s.log[j].device);
      }
    }
  }

  lemma {:induction false} AcceptKeeps(s: State, device: Key, nonce: U64, energy: U64, verifiedAt: int, now: Time)
    requires Inv(s)
    ensures Inv(Settle(Accept(s, device, nonce, energy, verifiedAt, now), s))
  {
    var r := Accept(s, device, nonce, energy, verifiedAt, now);
    if r.Ok? {
      var t, owner := r.value, s.producers[device].authority;
      assert RecordOk(s, device);
      EditKeepsLinks(s, t, device);
      AcceptKeepsLog(s, t, device, Minted(device, nonce, energy, now));
      SumUpdate(s.producers, LiveEnergy, device, t.producers[device]);
      if owner in s.owners {
        assert CounterOk(s, owner);
      }
      EditKeepsCounters(s, t, device, owner);
    }
  }

  // ------------------------------------------------------------- every run

  lemma {:induction false} InitialInv()
    ensures Inv(Initial())
  {
    SumOfZeros(Initial().producers, LiveEnergy);
  }

  lemma {:induction false} AttemptKeeps(s: State, step: Step)
    requires Inv(s)
    ensures Inv(Settle(Attempt(s, step), s))
  {
    match step
    case RegisterStep(d, signed, at, now) => RegisterKeeps(s, d, signed, at, now);
    case ClaimStep(d, owner, signed, nonce, at, now) => ClaimKeeps(s, d, owner, signed, nonce, at, now);
    case ProvisionStep(d, signer) => ProvisionKeeps(s, d, signer);
    case ActivateStep(d, signer) => ActivateKeeps(s, d, signer);
    case QuarantineStep(d, signer) => QuarantineKeeps(s, d, signer);
    case MaintainStep(d, signer) => MaintainKeeps(s, d, signer);
    case RevokeStep(d, signer, admin, vaultGiven, counterGiven) => RevokeKeeps(s, d, signer, admin, vaultGiven, counterGiven);
    case RotateStep(d, n, signer, admin, vaultGiven, signed, nonce, at, now) =>
      RotateKeeps(s, d, n, signer, admin, vaultGiven, signed, nonce, at, now);
    case SetTierStep(d, tier, signer, admin, now) => SetTierKeeps(s, d, tier, signer, admin, now);
    case AcceptStep(d, nonce, energy, verifiedAt, now) => AcceptKeeps(s, d, nonce, energy, verifiedAt, now);
  }

  lemma {:induction false} RunKeeps(steps: seq<Step>)
    ensures Inv(Run(steps))
  {
    if steps == [] {
      InitialInv();
    } else {
      RunKeeps(steps[..|steps| - 1]);
      AttemptKeeps(Run(steps[..|steps| - 1]), steps[|steps| - 1]);
    }
  }

  // ------------------------------------------------------------- chains of rotations

  /** The record `n` rotations after `k`, or NO_KEY past the last. */
  function Follow(s: State, k: Key, n: nat): Key
    decreases n
  {
    if n == 0 || k !in s.producers then k else Follow(s, s.producers[k].rotatedTo, n - 1)
  }

  lemma {:induction false} FollowMark(s: State, k: Key, n: nat)
    requires Linked(s) && k in s.producers && Follow(s, k, n) in s.producers
    ensures s.marks[Follow(s, k, n)] == Mark(s.marks[k].chain, s.marks[k].position + n)
    decreases n
  {
    if n == 0 {
    } else {
      assert RecordOk(s, k);
      if !s.producers[k].Live() {
        FollowMark(s, s.producers[k].rotatedTo, n - 1);
      }
    }
  }

  /** Following rotations never returns to a record: the links are acyclic. */
  lemma {:induction false} RotationsAcyclic(steps: seq<Step>, k: Key, n: nat)
    requires k in Run(steps).producers && 0 < n
    ensures Follow(Run(steps), k, n) != k
  {
    RunKeeps(steps);
    if Follow(Run(steps), k, n) in Run(steps).producers {
      FollowMark(Run(steps), k, n);
    }
  }

  /** No two records were rotated to the same key: chains never join. */
  lemma {:induction false} RotationsDisjoint(steps: seq<Step>, a: Key, b: Key)
    requires var s := Run(steps); a in s.producers && b in s.producers
    requires var s := Run(steps); s.producers[a].rotatedTo == s.producers[b].rotatedTo != NO_KEY
    ensures a == b
  {
    var s := Run(steps);
    RunKeeps(steps);
    assert RecordOk(s, a) && RecordOk(s, b) && PairOk(s, a, b);
  }

  /** Only the last record of a chain can be unrevoked, and a link leads to a registered record. */
  lemma {:induction false} OnlyLastUnrevoked(steps: seq<Step>, k: Key)
    requires k in Run(steps).producers
    ensures var s := Run(steps);
            s.producers[k].rotatedTo != NO_KEY ==> s.producers[k].revoked && s.producers[k].rotatedTo in s.producers
    ensures var s := Run(steps); s.producers[k].revoked <==> s.producers[k].state == Revoked
  {
    RunKeeps(steps);
    assert RecordOk(Run(steps), k);
  }

  lemma {:induction false} LaterIsReached(s: State, a: Key, b: Key)
    requires Linked(s) && a in s.producers && b in s.producers
    requires s.marks[a].chain == s.marks[b].chain && s.marks[a].position <= s.marks[b].position
    ensures Follow(s, a, s.marks[b].position - s.marks[a].position) == b
    decreases s.marks[b].position - s.marks[a].position
  {
    assert PairOk(s, a, b);
    if a != b {
      assert RecordOk(s, a);
      LaterIsReached(s, s.producers[a].rotatedTo, b);
    }
  }

  ghost predicate OneDevice(s: State, a: Key, b: Key) {
    exists n: nat :: Follow(s, a, n) == b || Follow(s, b, n) == a
  }

  /** The chain a key was registered into is exactly the records it reaches or that reach it. */
  lemma {:induction false} ChainIsReachability(s: State, a: Key, b: Key)
    requires Linked(s) && a in s.producers && b in s.producers
    ensures SameChain(s, a, b) <==> OneDevice(s, a, b)
  {
    if SameChain(s, a, b) {
      if s.marks[a].position <= s.marks[b].position {
        LaterIsReached(s, a, b);
      } else {
        LaterIsReached(s, b, a);
      }
    }
    if OneDevice(s, a, b) {
      var n: nat :| Follow(s, a, n) == b || Follow(s, b, n) == a;
      if Follow(s, a, n) == b {
        FollowMark(s, a, n);
      } else {
        FollowMark(s, b, n);
      }
    }
  }

  /** Accepted nonces strictly increase along a chain of rotations, in the order the reports were
      accepted; so no nonce of one physical device is ever minted twice, whatever its key was. */
  lemma {:induction false} NoncesIncrease(steps: seq<Step>, i: nat, j: nat)
    requires i < j < |Run(steps).log|
    requires OneDevice(Run(steps), Run(steps).log[i].device, Run(steps).log[j].device)
    ensures Run(steps).log[i].nonce < Run(steps).log[j].nonce
  {
    var s := Run(steps);
    RunKeeps(steps);
    assert LoggedBelow(s, s.log[i]) && LoggedBelow(s, s.log[j]);
    ChainIsReachability(s, s.log[i].device, s.log[j].device);
  }

  // ------------------------------------------------------------- the month's energy

  /** The energy of the log's entries at some places. */
  function EnergyAt(log: seq<Minted>, places: set<nat>): nat {
    if log == [] then 0
    else
      var last := |log| - 1;
      EnergyAt(log[..last], places) + if last in places then log[last].energy else 0
  }

  lemma {:induction false} SamePlaces(log: seq<Minted>, p: set<nat>, q: set<nat>)
    requires forall i :: 0 <= i < |log| ==> (i in p <==> i in q)
    ensures EnergyAt(log, p) == EnergyAt(log, q)
  {
    if log == [] {
    } else {
      SamePlaces(log[..|log| - 1], p, q);
    }
  }

  lemma {:induction false} NoPlaces(log: seq<Minted>)
    ensures EnergyAt(log, {}) == 0
  {
    if log == [] {
    } else {
      NoPlaces(log[..|log| - 1]);
    }
  }

  lemma {:induction false} OneMorePlace(log: seq<Minted>, e: Minted, places: set<nat>)
    requires forall i :: i in places ==> i < |log|
    ensures EnergyAt(log + [e], places) == EnergyAt(log, places)
    ensures EnergyAt(log + [e], places + {|log|}) == EnergyAt(log, places) + e.energy
  {
    assert (log + [e])[..|log|] == log;
    SamePlaces(log, places, places + {|log|});
  }

  predicate OfChain(marks: map<Key, Mark>, chain: Key, e: Minted) {
    e.device in marks && marks[e.device].chain == chain
  }

  /** Where the log names a chain, from a place on. */
  function PlacesFrom(s: State, chain: Key, from: nat): set<nat> {
    set i | from <= i < |s.log| && OfChain(s.marks, chain, s.log[i])
  }

  /** Where the log names a chain at a clock reading of `since` or later. */
  function PlacesSince(s: State, chain: Key, since: Time): set<nat> {
    set i | 0 <= i < |s.log| && since <= s.log[i].at && OfChain(s.marks, chain, s.log[i])
  }

  /** The energy of the reports accepted along a record's chain since its month began. */
  function ChainMonth(s: State, k: Key): nat
    requires k in s.marks
  {
    EnergyAt(s.log, PlacesFrom(s, s.marks[k].chain, BeganAt(s, k)))
  }

  /** The energy of the reports accepted along a record's chain at a clock reading of `since` or later. */
  function ChainSince(s: State, k: Key, since: Time): nat
    requires k in s.marks
  {
    EnergyAt(s.log, PlacesSince(s, s.marks[k].chain, since))
  }

  ghost predicate MonthOk(s: State, k: Key)
    requires k in s.producers
  {
    s.producers[k].Live() ==> k in s.marks && BeganAt(s, k) <= |s.log| && s.producers[k].monthEnergy == ChainMonth(s, k)
  }

  ghost predicate MonthsOk(s: State) {
    forall k {:trigger MonthOk(s, k)} :: k in s.producers ==> MonthOk(s, k)
  }

  /** A key that is new to the marks stands nowhere in the log. */
  lemma {:induction false} NewMarkKeepsPlaces(s: State, t: State, n: Key, chain: Key, from: nat)
    requires Logged(s) && n !in s.marks && n in t.marks && t.marks == s.marks[n := t.marks[n]] && t.log == s.log
    ensures PlacesFrom(t, chain, from) == PlacesFrom(s, chain, from)
  {
    forall i | 0 <= i < |s.log| ensures OfChain(t.marks, chain, s.log[i]) <==> OfChain(s.marks, chain, s.log[i]) {
      assert LoggedBelow(s, s.log[i]);
    }
  }

  lemma {:induction false} RegisterKeepsMonths(s: State, device: Key, signed: bool, at: int, now: Time)
    requires Inv(s) && MonthsOk(s)
    ensures MonthsOk(Settle(Register(s, device, signed, at, now), s))
  {
    var r := Register(s, device, signed, at, now);
    if r.Ok? {
      var t := r.value;
      forall k {:trigger MonthOk(t, k)} | k in t.producers ensures MonthOk(t, k) {
        if k == device {
          assert PlacesFrom(t, device, |t.log|) == {};
          NoPlaces(t.log);
        } else {
          assert MonthOk(s, k) && RecordOk(s, k);
          NewMarkKeepsPlaces(s, t, device, s.marks[k].chain, BeganAt(s, k));
        }
      }
    }
  }

  lemma {:induction false} RotateKeepsMonths(s: State, device: Key, newDevice: Key, signer: Wallet, admin: Key, vaultGiven: bool,
                                             signed: bool, nonce: U64, at: int, now: Time)
    requires Inv(s) && MonthsOk(s)
    ensures MonthsOk(Settle(Rotate(s, device, newDevice, signer, admin, vaultGiven, signed, nonce, at, now), s))
  {
    var r := Rotate(s, device, newDevice, signer, admin, vaultGiven, signed, nonce, at, now);
    if r.Ok? {
      var t := r.value;
      assert RecordOk(s, device);
      forall k {:trigger MonthOk(t, k)} | k in t.producers ensures MonthOk(t, k) {
        var before := if k == newDevice then device else k;
        assert MonthOk(s, before) && RecordOk(s, before);
        NewMarkKeepsPlaces(s, t, newDevice, s.marks[before].chain, BeganAt(s, before));
      }
    }
  }

  lemma {:induction false} SetTierKeepsMonths(s: State, device: Key, tier: Tier, signer: Wallet, admin: Key, now: Time)
    requires Inv(s) && MonthsOk(s)
    ensures MonthsOk(Settle(SetTier(s, device, tier, signer, admin, now), s))
  {
    var r := SetTier(s, device, tier, signer, admin, now);
    if r.Ok? {
      var t := r.value;
      forall k {:trigger MonthOk(t, k)} | k in t.producers ensures MonthOk(t, k) {
        assert MonthOk(s, k) && RecordOk(s, k);
        if k == device {
          assert PlacesFrom(t, t.marks[k].chain, |t.log|) == {};
          NoPlaces(t.log);
        } else {
          assert PlacesFrom(t, t.marks[k].chain, BeganAt(t, k)) == PlacesFrom(s, s.marks[k].chain, BeganAt(s, k));
        }
      }
    }
  }

  /** One more entry of a chain adds its place; an entry of another chain adds none. */
  lemma {:induction false} AppendPlaces(s: State, t: State, e: Minted, chain: Key, from: nat)
    requires t.log == s.log + [e] && t.marks == s.marks && from <= |s.log|
    ensures PlacesFrom(t, chain, from) == PlacesFrom(s, chain, from) + if OfChain(s.marks, chain, e) then {|s.log|} else {}
    ensures EnergyAt(t.log, PlacesFrom(t, chain, from))
         == EnergyAt(s.log, PlacesFrom(s, chain, from)) + if OfChain(s.marks, chain, e) then e.energy else 0
  {
    assert PlacesFrom(t, chain, from) == PlacesFrom(s, chain, from) + if OfChain(s.marks, chain, e) then {|s.log|} else {};
    OneMorePlace(s.log, e, PlacesFrom(s, chain, from));
    assert PlacesFrom(s, chain, from) + {} == PlacesFrom(s, chain, from);
  }

  /** The accepted report counts for its own record, and for no other live one. */
  lemma {:induction false} AcceptKeepsMonths(s: State, device: Key, nonce: U64, energy: U64, verifiedAt: int, now: Time)
    requires Inv(s) && MonthsOk(s)
    ensures MonthsOk(Settle(Accept(s, device, nonce, energy, verifiedAt, now), s))
  {
    var r := Accept(s, device, nonce, energy, verifiedAt, now);
    if r.Ok? {
      var t := r.value;
      assert RecordOk(s, device);
      forall k {:trigger MonthOk(t, k)} | k in t.producers ensures MonthOk(t, k) {
        assert MonthOk(s, k) && RecordOk(s, k);
        if t.producers[k].Live() {
          var chain := s.marks[k].chain;
          AppendPlaces(s, t, Minted(device, nonce, energy, now), chain, BeganAt(t, k));
          if k != device {
            assert PairOk(s, k, device) && PairOk(s, device, k);
          } else if MonthOver(s.producers[k], now) {
            assert PlacesFrom(s, chain, |s.log|) == {};
            NoPlaces(s.log);
          }
        }
      }
    }
  }

  /** The log, the marks and every record's month and links stand. */
  ghost predicate MonthsKept(s: State, t: State) {
    && t.log == s.log && t.marks == s.marks && t.began == s.began && t.producers.Keys == s.producers.Keys
    && forall k {:trigger t.producers[k]} :: k in t.producers ==>
         && t.producers[k].rotatedTo == s.producers[k].rotatedTo
         && t.producers[k].monthEnergy == s.producers[k].monthEnergy && t.producers[k].monthStart == s.producers[k].monthStart
  }

  lemma {:induction false} ClaimKeepsMonths(s: State, device: Key, owner: Wallet, signed: bool, nonce: U64, at: int, now: Time)
    ensures MonthsKept(s, Settle(Claim(s, device, owner, signed, nonce, at, now), s))
  {
  }

  lemma {:induction false} RevokeKeepsMonths(s: State, device: Key, signer: Wallet, admin: Key, vaultGiven: bool, counterGiven: bool)
    ensures MonthsKept(s, Settle(Revoke(s, device, signer, admin, vaultGiven, counterGiven), s))
  {
  }

  /** Claims, the owner's transitions and revocations leave the months alone. */
  lemma {:induction false} MonthsAreKept(s: State, step: Step)
    requires !step.RegisterStep? && !step.RotateStep? && !step.SetTierStep? && !step.AcceptStep?
    ensures MonthsKept(s, Settle(Attempt(s, step), s))
  {
    match step
    case ClaimStep(d, owner, signed, nonce, at, now) => ClaimKeepsMonths(s, d, owner, signed, nonce, at, now);
    case RevokeStep(d, signer, admin, vaultGiven, counterGiven) =>
      RevokeKeepsMonths(s, d, signer, admin, vaultGiven, counterGiven);
    case _ =>
  }

  lemma {:induction false} KeptMonthsOk(s: State, t: State)
    requires MonthsOk(s) && MonthsKept(s, t)
    ensures MonthsOk(t)
  {
    forall k {:trigger MonthOk(t, k)} | k in t.producers ensures MonthOk(t, k) {
      assert MonthOk(s, k);
      if k in s.marks {
        assert PlacesFrom(t, t.marks[k].chain, BeganAt(t, k)) == PlacesFrom(s, s.marks[k].chain, BeganAt(s, k));
      }
    }
  }

  lemma {:induction false} RunKeepsMonths(steps: seq<Step>)
    ensures MonthsOk(Run(steps))
  {
    if steps == [] {
    } else {
      var s := Run(steps[..|steps| - 1]);
      RunKeepsMonths(steps[..|steps| - 1]);
      RunKeeps(steps[..|steps| - 1]);
      match steps[|steps| - 1]
      case RegisterStep(d, signed, at, now) => RegisterKeepsMonths(s, d, signed, at, now);
      case RotateStep(d, n, signer, admin, vaultGiven, signed, nonce, at, now) =>
        RotateKeepsMonths(s, d, n, signer, admin, vaultGiven, signed, nonce, at, now);
      case SetTierStep(d, tier, signer, admin, now) => SetTierKeepsMonths(s, d, tier, signer, admin, now);
      case AcceptStep(d, nonce, energy, verifiedAt, now) => AcceptKeepsMonths(s, d, nonce, energy, verifiedAt, now);
      case step =>
        MonthsAreKept(s, step);
        KeptMonthsOk(s, Settle(Attempt(s, step), s));
    }
  }

  /** A record's month energy is what was accepted along its whole chain of keys since its month began:
      a rotation in between neither loses nor restarts any of it. */
  lemma {:induction false} MonthIsTheChains(steps: seq<Step>, k: Key)
    requires k in Run(steps).producers && Run(steps).producers[k].Live()
    ensures k in Run(steps).marks && Run(steps).producers[k].monthEnergy == ChainMonth(Run(steps), k)
  {
    RunKeepsMonths(steps);
    assert MonthOk(Run(steps), k);
  }

  predicate ReadsClock(step: Step) {
    step.RegisterStep? || step.ClaimStep? || step.RotateStep? || step.SetTierStep? || step.AcceptStep?
  }

  /** The latest clock reading of a run. */
  function Latest(steps: seq<Step>): Time {
    if steps == [] then 0
    else
      var latest, step := Latest(steps[..|steps| - 1]), steps[|steps| - 1];
      if ReadsClock(step) && latest < step.now then step.now else latest
  }

  /** The clock never runs backwards. */
  predicate Forward(steps: seq<Step>) {
    steps != [] ==>
      var before, step := steps[..|steps| - 1], steps[|steps| - 1];
      Forward(before) && (ReadsClock(step) ==> Latest(before) <= step.now)
  }

  /** The run sets the tier of no record of the chain. */
  predicate KeepsTiers(steps: seq<Step>, chain: Key) {
    steps != [] ==>
      var before, step := steps[..|steps| - 1], steps[|steps| - 1];
      var s := Run(before);
      KeepsTiers(before, chain) && (step.SetTierStep? && step.device in s.marks ==> s.marks[step.device].chain != chain)
  }

  /** The accepted report at place `i` lies on the right side of the record's month. */
  ghost predicate EntryTimed(p: Producer, from: nat, i: nat, e: Minted, latest: Time) {
    && e.at <= latest
    && if p.monthStart == 0 then e.at == 0 else e.at < p.monthStart + TIER_MONTH && (from <= i <==> p.monthStart <= e.at)
  }

  ghost predicate RecordTimed(s: State, k: Key, latest: Time)
    requires k in s.producers && k in s.marks
  {
    s.producers[k].monthStart <= latest &&
    forall i {:trigger EntryTimed(s.producers[k], BeganAt(s, k), i, s.log[i], latest)} ::
      0 <= i < |s.log| && OfChain(s.marks, s.marks[k].chain, s.log[i]) ==>
        EntryTimed(s.producers[k], BeganAt(s, k), i, s.log[i], latest)
  }

  ghost predicate ChainTimed(s: State, chain: Key, latest: Time) {
    forall k {:trigger RecordTimed(s, k, latest)} ::
      k in s.producers && k in s.marks && s.producers[k].Live() && s.marks[k].chain == chain ==> RecordTimed(s, k, latest)
  }

  /** The record of `k` in `t` has the month and the chain of the record of `j` in `s`. */
  lemma {:induction false} SameMonthTimed(s: State, j: Key, t: State, k: Key, latest: Time, later: Time)
    requires Logged(s) && latest <= later && j in s.producers && j in s.marks && RecordTimed(s, j, latest)
    requires k in t.producers && k in t.marks && t.log == s.log && BeganAt(t, k) == BeganAt(s, j)
    requires t.producers[k].monthStart == s.producers[j].monthStart && t.marks[k].chain == s.marks[j].chain
    requires forall d :: d in s.marks ==> d in t.marks && t.marks[d] == s.marks[d]
    ensures RecordTimed(t, k, later)
  {
    forall i {:trigger EntryTimed(t.producers[k], BeganAt(t, k), i, t.log[i], later)} |
      0 <= i < |t.log| && OfChain(t.marks, t.marks[k].chain, t.log[i])
      ensures EntryTimed(t.producers[k], BeganAt(t, k), i, t.log[i], later)
    {
      assert LoggedBelow(s, s.log[i]);
      assert EntryTimed(s.producers[j], BeganAt(s, j), i, s.log[i], latest);
    }
  }

  /** No report was accepted along the chain of a fresh record. */
  lemma {:induction false} NoneLogged(s: State, t: State, k: Key)
    requires Linked(s) && Logged(s) && k !in s.producers && t.log == s.log && t.marks == s.marks[k := Mark(k, 0)]
    ensures forall i :: 0 <= i < |t.log| ==> !OfChain(t.marks, k, t.log[i])
  {
    forall i | 0 <= i < |t.log| ensures !OfChain(t.marks, k, t.log[i]) {
      assert LoggedBelow(s, s.log[i]);
      assert RecordOk(s, s.log[i].device);
    }
  }

  lemma {:induction false} RegisterKeepsTimes(s: State, device: Key, signed: bool, at: int, now: Time,
                                              chain: Key, latest: Time, later: Time)
    requires Inv(s) && ChainTimed(s, chain, latest) && latest <= later
    ensures ChainTimed(Settle(Register(s, device, signed, at, now), s), chain, later)
  {
    var t := Settle(Register(s, device, signed, at, now), s);
    forall k {:trigger RecordTimed(t, k, later)} |
      k in t.producers && k in t.marks && t.producers[k].Live() && t.marks[k].chain == chain
      ensures RecordTimed(t, k, later)
    {
      if k in s.producers {
        assert RecordTimed(s, k, latest);
        SameMonthTimed(s, k, t, k, latest, later);
      } else {
        NoneLogged(s, t, k);
      }
    }
  }

  lemma {:induction false} RotateKeepsTimes(s: State, device: Key, newDevice: Key, signer: Wallet, admin: Key, vaultGiven: bool,
                                            signed: bool, nonce: U64, at: int, now: Time, chain: Key, latest: Time, later: Time)
    requires Inv(s) && ChainTimed(s, chain, latest) && latest <= later
    ensures ChainTimed(Settle(Rotate(s, device, newDevice, signer, admin, vaultGiven, signed, nonce, at, now), s), chain, later)
  {
    var t := Settle(Rotate(s, device, newDevice, signer, admin, vaultGiven, signed, nonce, at, now), s);
    forall k {:trigger RecordTimed(t, k, later)} |
      k in t.producers && k in t.marks && t.producers[k].Live() && t.marks[k].chain == chain
      ensures RecordTimed(t, k, later)
    {
      var before := if k in s.producers then k else device;
      assert RecordOk(s, before) && RecordTimed(s, before, latest);
      SameMonthTimed(s, before, t, k, latest, later);
    }
  }

  lemma {:induction false} SetTierKeepsTimes(s: State, device: Key, tier: Tier, signer: Wallet, admin: Key, now: Time,
                                             chain: Key, latest: Time, later: Time)
    requires Inv(s) && ChainTimed(s, chain, latest) && latest <= later
    requires device in s.marks ==> s.marks[device].chain != chain
    ensures ChainTimed(Settle(SetTier(s, device, tier, signer, admin, now), s), chain, later)
  {
    var t := Settle(SetTier(s, device, tier, signer, admin, now), s);
    forall k {:trigger RecordTimed(t, k, later)} |
      k in t.producers && k in t.marks && t.producers[k].Live() && t.marks[k].chain == chain
      ensures RecordTimed(t, k, later)
    {
      assert RecordTimed(s, k, latest);
      SameMonthTimed(s, k, t, k, latest, later);
    }
  }

  lemma {:induction false} KeptTimes(s: State, t: State, chain: Key, latest: Time, later: Time)
    requires Inv(s) && ChainTimed(s, chain, latest) && latest <= later && MonthsKept(s, t)
    ensures ChainTimed(t, chain, later)
  {
    forall k {:trigger RecordTimed(t, k, later)} |
      k in t.producers && k in t.marks && t.producers[k].Live() && t.marks[k].chain == chain
      ensures RecordTimed(t, k, later)
    {
      assert RecordTimed(s, k, latest);
      SameMonthTimed(s, k, t, k, latest, later);
    }
  }

  lemma {:induction false} AcceptKeepsTimes(s: State, device: Key, nonce: U64, energy: U64, verifiedAt: int, now: Time,
                                            chain: Key, latest: Time)
    requires Inv(s) && MonthsOk(s) && ChainTimed(s, chain, latest) && latest <= now
    ensures ChainTimed(Settle(Accept(s, device, nonce, energy, verifiedAt, now), s), chain, now)
  {
    var r := Accept(s, device, nonce, energy, verifiedAt, now);
    var t := Settle(r, s);
    forall k {:trigger RecordTimed(t, k, now)} |
      k in t.producers && k in t.marks && t.producers[k].Live() && t.marks[k].chain == chain
      ensures RecordTimed(t, k, now)
    {
      assert RecordOk(s, k) && RecordTimed(s, k, latest) && MonthOk(s, k);
      forall i {:trigger EntryTimed(t.producers[k], BeganAt(t, k), i, t.log[i], now)} |
        0 <= i < |t.log| && OfChain(t.marks, chain, t.log[i])
        ensures EntryTimed(t.producers[k], BeganAt(t, k), i, t.log[i], now)
      {
        if i < |s.log| {
          assert EntryTimed(s.producers[k], BeganAt(s, k), i, s.log[i], latest);
        } else {
          assert RecordOk(s, device);
          assert PairOk(s, k, device) && PairOk(s, device, k);
        }
      }
    }
  }

  lemma {:induction false} RunKeepsTimes(steps: seq<Step>, chain: Key)
    requires Forward(steps) && KeepsTiers(steps, chain)
    ensures ChainTimed(Run(steps), chain, Latest(steps))
  {
    if steps == [] {
    } else {
      var before, step := steps[..|steps| - 1], steps[|steps| - 1];
      var s, latest, later := Run(before), Latest(before), Latest(steps);
      RunKeepsTimes(before, chain);
      RunKeeps(before);
      match step
      case RegisterStep(d, signed, at, now) => RegisterKeepsTimes(s, d, signed, at, now, chain, latest, later);
      case RotateStep(d, n, signer, admin, vaultGiven, signed, nonce, at, now) =>
        RotateKeepsTimes(s, d, n, signer, admin, vaultGiven, signed, nonce, at, now, chain, latest, later);
      case SetTierStep(d, tier, signer, admin, now) => SetTierKeepsTimes(s, d, tier, signer, admin, now, chain, latest, later);
      case AcceptStep(d, nonce, energy, verifiedAt, now) =>
        RunKeepsMonths(before);
        AcceptKeepsTimes(s, d, nonce, energy, verifiedAt, now, chain, latest);
      case _ =>
        MonthsAreKept(s, step);
        KeptTimes(s, Settle(Attempt(s, step), s), chain, latest, later);
    }
  }

  /** While the clock runs forward and no tier of the chain is set, a record's month energy is exactly
      what was accepted along its chain at or after its month's start, and all of that within 30 days. */
  lemma {:induction false} MonthIsSinceItsStart(steps: seq<Step>, k: Key)
    requires k in Run(steps).producers && Run(steps).producers[k].Live() && Run(steps).producers[k].monthStart != 0
    requires Forward(steps) && k in Run(steps).marks && KeepsTiers(steps, Run(steps).marks[k].chain)
    ensures var s := Run(steps); s.producers[k].monthEnergy == ChainSince(s, k, s.producers[k].monthStart)
    ensures var s := Run(steps);
            forall i :: 0 <= i < |s.log| && OfChain(s.marks, s.marks[k].chain, s.log[i]) ==>
              s.log[i].at < s.producers[k].monthStart + 2_592_000
  {
    var s := Run(steps);
    var chain, start := s.marks[k].chain, s.producers[k].monthStart;
    RunKeepsTimes(steps, chain);
    assert RecordTimed(s, k, Latest(steps));
    MonthIsTheChains(steps, k);
    forall i | 0 <= i < |s.log| && OfChain(s.marks, chain, s.log[i])
      ensures BeganAt(s, k) <= i <==> start <= s.log[i].at
      ensures s.log[i].at < start + TIER_MONTH
    {
      assert EntryTimed(s.producers[k], BeganAt(s, k), i, s.log[i], Latest(steps));
    }
    assert PlacesFrom(s, chain, BeganAt(s, k)) == PlacesSince(s, chain, start);
  }

  // ------------------------------------------------------------- energy and counters

  function LogEnergy(log: seq<Minted>): nat {
    if log == [] then 0 else LogEnergy(log[..|log| - 1]) + log[|log| - 1].energy
  }

  lemma {:induction false} AcceptLogs(s: State, device: Key, nonce: U64, energy: U64, verifiedAt: int, now: Time)
    requires s.totalEnergy == LogEnergy(s.log)
    ensures var t := Settle(Accept(s, device, nonce, energy, verifiedAt, now), s); t.totalEnergy == LogEnergy(t.log)
  {
    assert (s.log + [Minted(device, nonce, energy, now)])[..|s.log|] == s.log;
  }

  lemma {:induction false} OthersLogNothing(s: State, step: Step)
    requires !step.AcceptStep?
    ensures var t := Settle(Attempt(s, step), s); t.totalEnergy == s.totalEnergy && t.log == s.log
  {
  }

  lemma {:induction false} TotalIsLogged(steps: seq<Step>)
    ensures Run(steps).totalEnergy == LogEnergy(Run(steps).log)
  {
    if steps == [] {
    } else {
      var before, step := Run(steps[..|steps| - 1]), steps[|steps| - 1];
      TotalIsLogged(steps[..|steps| - 1]);
      match step
      case AcceptStep(d, nonce, energy, verifiedAt, now) => AcceptLogs(before, d, nonce, energy, verifiedAt, now);
      case _ => OthersLogNothing(before, step);
    }
  }

  /** The vault's total is the energy of the records not rotated away, and the energy of every report
      ever accepted: rotation neither loses nor doubles any. */
  lemma {:induction false} EnergyConserved(steps: seq<Step>)
    ensures Run(steps).totalEnergy == Sum(Run(steps).producers, LiveEnergy) == LogEnergy(Run(steps).log)
  {
    RunKeeps(steps);
    TotalIsLogged(steps);
  }

  function ActiveDevices(s: State, owner: Key): set<Key> {
    set k | k in s.producers && s.producers[k].authority == owner && s.producers[k].state == Active
  }

  lemma {:induction false} ActiveCounted(s: State, owner: Key)
    ensures Sum(s.producers, ActiveOf(owner)) == |ActiveDevices(s, owner)|
  {
    SumCounts(s.producers, ActiveOf(owner));
    assert ActiveDevices(s, owner) == Marked(s.producers, ActiveOf(owner));
  }

  /** For every owner: active devices <= active_count <= total_claimed <= 100, and the counter is ahead
      of the devices by exactly the active ones revoked without it. */
  lemma {:induction false} CountersBound(steps: seq<Step>, owner: Key)
    requires owner in Run(steps).owners
    ensures var s := Run(steps);
            && |ActiveDevices(s, owner)| + StrandedOf(s, owner) == s.owners[owner].activeCount
            && s.owners[owner].activeCount <= s.owners[owner].totalClaimed <= 100
  {
    var s := Run(steps);
    RunKeeps(steps);
    assert CounterOk(s, owner);
    ActiveCounted(s, owner);
  }

  /** The gap grows by one exactly when an active device is revoked without its owner's counter. */
  lemma {:induction false} StrandedExactly(s: State, step: Step, owner: Key)
    ensures var t := Settle(Attempt(s, step), s);
            StrandedOf(t, owner) == StrandedOf(s, owner)
              + (if step.RevokeStep? && Attempt(s, step).Ok? && !step.counterGiven
                    && s.producers[step.device].state == Active && s.producers[step.device].authority == owner
                 then 1 else 0)
  {
  }

  /** The limit checks of activation and release can never fail, and no decrement ever saturates. */
  lemma {:induction false} CountersNeverClamp(steps: seq<Step>, device: Key, signer: Wallet)
    ensures var s := Run(steps); Activate(s, device, signer) != Err(DeviceLimitReached)
    ensures var s := Run(steps);
            device in s.producers && s.producers[device].authority != NO_KEY && s.producers[device].state == Active ==>
              s.producers[device].authority in s.owners && 1 <= s.owners[s.producers[device].authority].activeCount
  {
    var s := Run(steps);
    RunKeeps(steps);
    if device in s.producers && s.producers[device].authority != NO_KEY {
      CounterCovers(s, device);
    }
  }

  // ------------------------------------------------------------- the lifecycle

  /** Which transition of a record's state a step may make, and on whose signature. */
  ghost predicate Sanctioned(p: Producer, q: Producer, step: Step) {
    match step
    case ClaimStep(_, owner, signed, _, _, _) => p.state == Registered && q.state == Claimed && signed && q.authority == owner
    case ProvisionStep(_, signer) => p.state == Claimed && q.state == Provisioned && p.authority == signer
    case ActivateStep(_, signer) =>
      p.state in {Provisioned, Quarantine, Maintenance} && q.state == Active && p.authority == signer
    case QuarantineStep(_, signer) => p.state == Active && q.state == Quarantine && p.authority == signer
    case MaintainStep(_, signer) => p.state in {Active, Quarantine} && q.state == Maintenance && p.authority == signer
    case RevokeStep(_, signer, admin, vaultGiven, _) =>
      p.state != Revoked && q.state == Revoked && (p.authority == signer || (vaultGiven && admin == signer))
    case RotateStep(_, _, signer, admin, vaultGiven, signed, _, _, _) =>
      p.state != Revoked && q.state == Revoked && signed && (p.authority == signer || (vaultGiven && admin == signer))
    case _ => false
  }

  lemma {:induction false} StateSanctioned(s: State, step: Step, k: Key)
    requires Linked(s) && k in s.producers
    ensures var t := Settle(Attempt(s, step), s);
            k in t.producers && (t.producers[k].state != s.producers[k].state ==>
              step.device == k && Sanctioned(s.producers[k], t.producers[k], step))
  {
    assert RecordOk(s, k);
  }

  /** A record changes state only by a sanctioned step on that record; records never disappear, a
      claimed device never changes hands, and a revoked one keeps everything but its tier. */
  lemma {:induction false} LifecycleRespected(s: State, step: Step, k: Key)
    requires Linked(s) && k in s.producers
    ensures var t := Settle(Attempt(s, step), s);
            k in t.producers &&
            var p, q := s.producers[k], t.producers[k];
            && (q.state != p.state ==> step.device == k && Sanctioned(p, q, step))
            && (p.authority != NO_KEY ==> q.authority == p.authority)
            && (p.revoked ==> q == p.(tier := q.tier, monthEnergy := q.monthEnergy, monthStart := q.monthStart))
  {
    assert RecordOk(s, k);
    StateSanctioned(s, step, k);
  }

  // ------------------------------------------------------------- when each step goes through

  /** A timestamp after the epoch, and at most five minutes ahead of the clock. */
  predicate Timely(at: int, now: Time) {
    1 <= at <= now + 300
  }

  /** A key is registered exactly once, signed by the device and timely; its record starts blank. */
  lemma {:induction false} RegisterIff(s: State, device: Key, signed: bool, at: int, now: Time)
    ensures Register(s, device, signed, at, now).Ok? <==>
      device != 0 && device !in s.producers && signed && Timely(at, now)
    ensures Register(s, device, signed, at, now).Ok? ==>
      var t := Register(s, device, signed, at, now).value;
      && t.producers == s.producers[device := Producer(0, device, 0, 0, 0, Registered, Basic, 0, 0, 0, 0, false, 0)]
      && t.owners == s.owners && t.totalEnergy == s.totalEnergy && t.log == s.log
  {
  }

  function ClaimedBy(s: State, owner: Key): nat {
    if owner in s.owners then s.owners[owner].totalClaimed else 0
  }

  function ActiveFor(s: State, owner: Key): nat {
    if owner in s.owners then s.owners[owner].activeCount else 0
  }

  /** A device is claimed exactly out of the registered state, on its own signature, with a claim nonce above
      its last, for an owner of fewer than a hundred devices. */
  lemma {:induction false} ClaimIff(steps: seq<Step>, device: Key, owner: Wallet, signed: bool, nonce: U64, at: int, now: Time)
    ensures var s := Run(steps);
            Claim(s, device, owner, signed, nonce, at, now).Ok? <==>
              && device in s.producers && s.producers[device].state == Registered && signed && Timely(at, now)
              && s.producers[device].claimNonce < nonce && ClaimedBy(s, owner) < 100
    ensures var s := Run(steps);
            Claim(s, device, owner, signed, nonce, at, now).Ok? ==>
              var t := Claim(s, device, owner, signed, nonce, at, now).value;
              && device in s.producers
              && t.producers == s.producers[device :=
                   s.producers[device].(authority := owner, state := Claimed, claimNonce := nonce, claimedAt := now)]
              && ClaimedBy(t, owner) == ClaimedBy(s, owner) + 1 && ActiveFor(t, owner) == ActiveFor(s, owner)
  {
    var s := Run(steps);
    RunKeeps(steps);
    if device in s.producers {
      assert RecordOk(s, device);
    }
  }

  /** The device's owner signed, and the device is in one of the states. */
  predicate OwnedIn(s: State, device: Key, signer: Key, states: set<DeviceState>) {
    device in s.producers && s.producers[device].authority == signer && s.producers[device].state in states
  }

  /** The owner's transitions go through exactly from the states of the lifecycle diagram: the limit checks never
      stand in their way, nor do the accounts they need. */
  lemma {:induction false} TransitionsIff(steps: seq<Step>, device: Key, signer: Wallet)
    ensures var s := Run(steps);
            && (Provision(s, device, signer).Ok? <==> OwnedIn(s, device, signer, {Claimed}))
            && (Activate(s, device, signer).Ok? <==> OwnedIn(s, device, signer, {Provisioned, Quarantine, Maintenance}))
            && (QuarantineDevice(s, device, signer).Ok? <==> OwnedIn(s, device, signer, {Active}))
            && (Maintain(s, device, signer).Ok? <==> OwnedIn(s, device, signer, {Active, Quarantine}))
  {
    var s := Run(steps);
    RunKeeps(steps);
    if device in s.producers && s.producers[device].authority == signer {
      assert RecordOk(s, device);
      CounterCovers(s, device);
    }
  }

  ghost predicate Moves(s: State, t: State, device: Key, owner: Key, state: DeviceState, change: int) {
    && device in s.producers && t.producers == s.producers[device := s.producers[device].(state := state)]
    && ActiveFor(t, owner) == ActiveFor(s, owner) + change && ClaimedBy(t, owner) == ClaimedBy(s, owner)
    && t.totalEnergy == s.totalEnergy && t.log == s.log
  }

  /** And they move the state alone, with the owner's counter of active devices following it. */
  lemma {:induction false} TransitionsMove(steps: seq<Step>, device: Key, signer: Wallet)
    ensures var s := Run(steps);
            && (forall t :: Provision(s, device, signer) == Ok(t) ==> Moves(s, t, device, signer, Provisioned, 0))
            && (forall t :: Activate(s, device, signer) == Ok(t) ==> Moves(s, t, device, signer, Active, 1))
            && (forall t :: QuarantineDevice(s, device, signer) == Ok(t) ==> Moves(s, t, device, signer, Quarantine, -1))
            && (forall t :: Maintain(s, device, signer) == Ok(t) ==>
                  Moves(s, t, device, signer, Maintenance, if s.producers[device].state == Active then -1 else 0))
  {
    var s := Run(steps);
    RunKeeps(steps);
    if device in s.producers && s.producers[device].authority == signer {
      CounterCovers(s, device);
    }
  }

  /** The owner signs, or the administrator with the vault account supplied. */
  predicate MayRetire(p: Producer, signer: Key, admin: Key, vaultGiven: bool) {
    p.authority == signer || (vaultGiven && admin == signer)
  }

  /** Unless it is revoked already, a device is revoked exactly by its owner or the administrator; anyone else is
      unauthorized. Only the counter account has to exist where it is supplied. */
  lemma {:induction false} RevokeIff(steps: seq<Step>, device: Key, signer: Wallet, admin: Key, vaultGiven: bool, counterGiven: bool)
    ensures var s, r := Run(steps), Revoke(Run(steps), device, signer, admin, vaultGiven, counterGiven);
            && (r.Ok? <==>
                  && device in s.producers && s.producers[device].state != Revoked
                  && MayRetire(s.producers[device], signer, admin, vaultGiven)
                  && (counterGiven ==> s.producers[device].authority != 0))
            && (r == Err(Unauthorized) <==>
                  && device in s.producers && s.producers[device].state != Revoked
                  && !(s.producers[device].authority == signer || (vaultGiven && admin == signer))
                  && (counterGiven ==> s.producers[device].authority != 0))
            && (r.Ok? ==> r.value.producers == s.producers[device := s.producers[device].(state := Revoked, revoked := true)])
  {
    var s := Run(steps);
    RunKeeps(steps);
    if device in s.producers {
      assert RecordOk(s, device);
    }
  }

  /** The checks of a rotation before the signer's. */
  predicate Rotatable(s: State, device: Key, newDevice: Key) {
    device in s.producers && s.producers[device].state != Revoked && newDevice != 0 && newDevice !in s.producers
  }

  /** A device's key is rotated exactly to a fresh one, by its owner or the administrator, on the new key's
      signature and with a claim nonce above the last. */
  lemma {:induction false} RotateIff(steps: seq<Step>, device: Key, newDevice: Key, signer: Wallet, admin: Key, vaultGiven: bool,
                                     signed: bool, nonce: U64, at: int, now: Time)
    ensures var s, r := Run(steps), Rotate(Run(steps), device, newDevice, signer, admin, vaultGiven, signed, nonce, at, now);
            && (r.Ok? <==>
                  && Rotatable(s, device, newDevice) && MayRetire(s.producers[device], signer, admin, vaultGiven)
                  && signed && Timely(at, now) && s.producers[device].claimNonce < nonce)
            && (r == Err(Unauthorized) <==>
                  && Rotatable(s, device, newDevice)
                  && !(s.producers[device].authority == signer || (vaultGiven && admin == signer)))
  {
    var s := Run(steps);
    RunKeeps(steps);
    if device in s.producers {
      assert RecordOk(s, device);
    }
  }

  /** The new record continues the old one under its own key and claim nonce, with owner, state, tier, energy,
      report nonce and month unchanged; the old one is retired and points to it. */
  lemma {:induction false} RotationContinues(s: State, device: Key, newDevice: Key, signer: Wallet, admin: Key, vaultGiven: bool,
                                             signed: bool, nonce: U64, at: int, now: Time)
    requires Linked(s) && Rotate(s, device, newDevice, signer, admin, vaultGiven, signed, nonce, at, now).Ok?
    ensures var t := Rotate(s, device, newDevice, signer, admin, vaultGiven, signed, nonce, at, now).value;
            && device in s.producers && newDevice != device
            && t.producers.Keys == s.producers.Keys + {newDevice} && t.owners == s.owners && t.totalEnergy == s.totalEnergy
            && (forall k :: k in s.producers && k != device ==> t.producers[k] == s.producers[k])
            && var p := s.producers[device];
               && t.producers[newDevice] == Producer(p.authority, newDevice, p.nonce, p.energy, p.timestamp, p.state, p.tier,
                                                     p.monthEnergy, p.monthStart, nonce, now, false, 0)
               && t.producers[device] == p.(state := Revoked, revoked := true, rotatedTo := newDevice)
  {
    assert RecordOk(s, device);
  }

  /** The administrator alone sets a tier, of any record; that restarts its month and changes nothing else. */
  lemma {:induction false} SetTierIff(s: State, device: Key, tier: Tier, signer: Wallet, admin: Key, now: Time)
    ensures SetTier(s, device, tier, signer, admin, now).Ok? <==> signer == admin && device in s.producers
    ensures SetTier(s, device, tier, signer, admin, now).Ok? ==>
      device in s.producers && SetTier(s, device, tier, signer, admin, now).value.producers
        == s.producers[device := s.producers[device].(tier := tier, monthEnergy := 0, monthStart := now)]
  {
  }

  /** The month's energy a report is added to. */
  function MonthBefore(p: Producer, now: Time): U64 {
    if p.monthStart == 0 || p.monthStart + 2_592_000 <= now then 0 else p.monthEnergy
  }

  /** A report is accepted exactly for a record not revoked, with a nonce above its last, while the sums fit; and
      its month restarts where it has not begun or 30 days have passed. */
  lemma {:induction false} AcceptIff(steps: seq<Step>, device: Key, nonce: U64, energy: U64, verifiedAt: int, now: Time)
    ensures var s, r := Run(steps), Accept(Run(steps), device, nonce, energy, verifiedAt, now);
            && (r.Ok? <==>
                  && device in s.producers && s.producers[device].state != Revoked && s.producers[device].nonce < nonce
                  && s.producers[device].energy + energy <= 0xFFFF_FFFF_FFFF_FFFF
                  && MonthBefore(s.producers[device], now) + energy <= 0xFFFF_FFFF_FFFF_FFFF
                  && s.totalEnergy + energy <= U128_MAX)
            && (r.Ok? ==>
                  && device in s.producers
                  && var p := s.producers[device];
                     r.value.producers == s.producers[device :=
                       p.(nonce := nonce, timestamp := verifiedAt, energy := p.energy + energy,
                          monthEnergy := MonthBefore(p, now) + energy,
                          monthStart := if p.monthStart == 0 || p.monthStart + 2_592_000 <= now then now else p.monthStart)])
  {
    var s := Run(steps);
    RunKeeps(steps);
    if device in s.producers {
      assert RecordOk(s, device);
    }
  }

  function Next(s: State, step: Step): State {
    Settle(Attempt(s, step), s)
  }

  /** Along a chain the claim nonce rises with every claim and rotation, and nothing else changes it. */
  lemma {:induction false} ClaimNonceRises(s: State, step: Step, k: Key)
    requires Linked(s) && k in s.producers
    ensures var t := Next(s, step);
            && k in t.producers
            && (t.producers[k].claimNonce != s.producers[k].claimNonce ==>
                  step.ClaimStep? && step.device == k && s.producers[k].claimNonce < step.nonce == t.producers[k].claimNonce)
            && (step.RotateStep? && step.device == k && Attempt(s, step).Ok? ==>
                  step.newDevice in t.producers && s.producers[k].claimNonce < step.nonce == t.producers[step.newDevice].claimNonce)
  {
    assert RecordOk(s, k);
  }

  // ------------------------------------------------------------- the program

  /** The program's accounts, updated in place by its instructions. */
  class DeviceProgram {
    var producers: map<Key, Producer>
    var owners: map<Key, OwnerDevices>
    var totalEnergy: U128
    ghost var marks: map<Key, Mark>
    ghost var log: seq<Minted>
    ghost var began: map<Key, nat>
    ghost var stranded: map<Key, nat>

    ghost function Accounts(): State
      reads this
    {
      State(producers, owners, totalEnergy, marks, log, began, stranded)
    }

    constructor ()
      ensures Accounts() == Initial()
    {
      producers, owners, totalEnergy := map[], map[], 0;
      marks, log, began, stranded := map[], [], map[], map[];
    }

    method RegisterDevice(device: Key, signed: bool, at: int, now: Time) returns (r: Result<()>)
      modifies this
      ensures Commits(Register(old(Accounts()), device, signed, at, now), old(Accounts()), Accounts(), r)
    {
      var latest := now + MAX_CLOCK_SKEW;
      :- Need(device !in producers, AccountInUse);
      :- Need(device != NO_KEY, InvalidParameter);
      :- Need(at > 0, InvalidParameter);
      :- Need(at <= latest, FutureTimestamp);
      :- Need(signed, Ed25519VerificationFailed);
      producers := producers[device := FreshProducer(device)];
      marks, began := marks[device := Mark(device, 0)], began[device := |log|];
      r := Ok(());
    }

    method ClaimDevice(device: Key, owner: Wallet, signed: bool, nonce: U64, at: int, now: Time) returns (r: Result<()>)
      modifies this
      ensures Commits(Claim(old(Accounts()), device, owner, signed, nonce, at, now), old(Accounts()), Accounts(), r)
    {
      var latest := now + MAX_CLOCK_SKEW;
      :- Need(device in producers, AccountMissing);
      var producer := producers[device];
      :- Need(!producer.revoked, DeviceRevoked);
      :- Need(producer.state == Registered, InvalidDeviceState);
      :- Need(producer.authority == NO_KEY, DeviceAlreadyClaimed);
      :- Need(at > 0, InvalidParameter);
      :- Need(at <= latest, FutureTimestamp);
      :- Need(nonce > producer.claimNonce, InvalidNonce);
      :- Need(signed, Ed25519VerificationFailed);
      var counters := OwnerDevices(0, 0);
      if owner in owners {
        counters := owners[owner];
      }
      :- Need(counters.totalClaimed < MAX_DEVICES_PER_OWNER, DeviceLimitReached);
      owners := owners[owner := counters.(totalClaimed := counters.totalClaimed + 1)];
      producer := producer.(authority := owner);
      producer := producer.(state := Claimed);
      producer := producer.(claimNonce := nonce);
      producer := producer.(claimedAt := now);
      producers := producers[device := producer];
      r := Ok(());
    }

    method OwnedDevice(device: Key, signer: Wallet) returns (r: Result<Producer>)
      ensures r == Owned(Accounts(), device, signer)
    {
      var known := device in producers;
      :- Need(known, AccountMissing);
      :- Need(producers[device].authority == signer, Unauthorized);
      r := Ok(producers[device]);
    }

    method ProvisionDevice(device: Key, signer: Wallet) returns (r: Result<()>)
      modifies this
      ensures Commits(Provision(old(Accounts()), device, signer), old(Accounts()), Accounts(), r)
    {
      var producer :- OwnedDevice(device, signer);
      :- Need(!producer.revoked, DeviceRevoked);
      :- Need(producer.state.CanBecome(Provisioned), InvalidStateTransition);
      producers := producers[device := producer.(state := Provisioned)];
      r := Ok(());
    }

    method ActivateDevice(device: Key, signer: Wallet) returns (r: Result<()>)
      modifies this
      ensures Commits(Activate(old(Accounts()), device, signer), old(Accounts()), Accounts(), r)
    {
      var producer :- OwnedDevice(device, signer);
      :- Need(signer in owners, AccountMissing);
      var counters := owners[signer];
      :- Need(!producer.revoked, DeviceRevoked);
      :- Need(producer.state.CanBecome(Active), InvalidStateTransition);
      :- Need(counters.activeCount < MAX_DEVICES_PER_OWNER, DeviceLimitReached);
      owners := owners[signer := counters.(activeCount := counters.activeCount + 1)];
      producers := producers[device := producer.(state := Active)];
      r := Ok(());
    }

    method Quarantine(device: Key, signer: Wallet) returns (r: Result<()>)
      modifies this
      ensures Commits(QuarantineDevice(old(Accounts()), device, signer), old(Accounts()), Accounts(), r)
    {
      var producer :- OwnedDevice(device, signer);
      :- Need(signer in owners, AccountMissing);
      var counters := owners[signer];
      :- Need(!producer.revoked, DeviceRevoked);
      :- Need(producer.state.CanBecome(DeviceState.Quarantine), InvalidStateTransition);
      owners := owners[signer := counters.(activeCount := SatSub(counters.activeCount, 1))];
      producers := producers[device := producer.(state := DeviceState.Quarantine)];
      r := Ok(());
    }

    method MaintenanceDevice(device: Key, signer: Wallet) returns (r: Result<()>)
      modifies this
      ensures Commits(Maintain(old(Accounts()), device, signer), old(Accounts()), Accounts(), r)
    {
      var producer :- OwnedDevice(device, signer);
      :- Need(signer in owners, AccountMissing);
      :- Need(!producer.revoked, DeviceRevoked);
      :- Need(producer.state.CanBecome(Maintenance), InvalidStateTransition);
      if producer.state == Active {
        var counters := owners[signer];
        owners := owners[signer := counters.(activeCount := SatSub(counters.activeCount, 1))];
      }
      producers := producers[device := producer.(state := Maintenance)];
      r := Ok(());
    }

    method RevokeDevice(device: Key, signer: Wallet, admin: Key, vaultGiven: bool, counterGiven: bool) returns (r: Result<()>)
      modifies this
      ensures Commits(Revoke(old(Accounts()), device, signer, admin, vaultGiven, counterGiven), old(Accounts()), Accounts(), r)
    {
      var known := device in producers;
      :- Need(known, AccountMissing);
      var producer := producers[device];
      :- Need(counterGiven ==> producer.authority in owners, AccountMissing);
      :- Need(!producer.revoked, DeviceAlreadyRevoked);
      :- Need(Entitled(producer, signer, admin, vaultGiven), Unauthorized);
      :- Need(producer.state != Revoked, DeviceAlreadyRevoked);
      if producer.state == Active {
        if counterGiven {
          var counters := owners[producer.authority];
          owners := owners[producer.authority := counters.(activeCount := SatSub(counters.activeCount, 1))];
        } else {
          stranded := Strand(Accounts(), producer.authority);
        }
      }
      producer := producer.(state := Revoked);
      producer := producer.(revoked := true);
      producers := producers[device := producer];
      r := Ok(());
    }

    method RotateDeviceKey(device: Key, newDevice: Key, signer: Wallet, admin: Key, vaultGiven: bool,
                           signed: bool, nonce: U64, at: int, now: Time) returns (r: Result<()>)
      modifies this
      ensures Commits(Rotate(old(Accounts()), device, newDevice, signer, admin, vaultGiven, signed, nonce, at, now),
                      old(Accounts()), Accounts(), r)
    {
      var latest := now + MAX_CLOCK_SKEW;
      :- Need(device in producers, AccountMissing);
      var retired := producers[device];
      :- Need(newDevice != NO_KEY, InvalidParameter);
      :- Need(newDevice !in producers, AccountInUse);
      :- Need(!retired.revoked, DeviceAlreadyRevoked);
      :- Need(retired.state != Revoked, DeviceAlreadyRevoked);
      :- Need(Entitled(retired, signer, admin, vaultGiven), Unauthorized);
      :- Need(at > 0, InvalidParameter);
      :- Need(at <= latest, FutureTimestamp);
      :- Need(nonce > retired.claimNonce, InvalidNonce);
      :- Need(signed, Ed25519VerificationFailed);
      var successor := Producer(retired.authority, newDevice, retired.nonce, retired.energy, retired.timestamp,
                                retired.state, retired.tier, retired.monthEnergy, retired.monthStart,
                                nonce, now, false, NO_KEY);
      producers := producers[newDevice := successor];
      retired := retired.(state := Revoked);
      retired := retired.(revoked := true);
      retired := retired.(rotatedTo := newDevice);
      producers := producers[device := retired];
      ghost var mark := if device in marks then marks[device] else Mark(device, 0);
      marks := marks[newDevice := Mark(mark.chain, mark.position + 1)];
      began := began[newDevice := if device in began then began[device] else 0];
      r := Ok(());
    }
  }
}
