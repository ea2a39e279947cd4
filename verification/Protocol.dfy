/** What every handler shares: account keys, clock readings, errors, and the all-or-nothing
    outcome of a transaction. */
module Protocol {
  import opened Arithmetic

  /** Account keys; `Pubkey::default()` is NO_KEY. */
  type Key = nat
  const NO_KEY: Key := 0

  /** A key that can sign. The all-zero key cannot. */
  type Wallet = k: Key | k != NO_KEY witness 1

  /** Clock readings: non-negative `i64`, so that their differences cannot overflow. */
  type Time = t: nat | t < 0x8000_0000_0000_0000

  const MAX_CLOCK_SKEW: nat := 300

  predicate Distinct(keys: seq<Key>) {
    forall i, j :: 0 <= i < j < |keys| ==> keys[i] != keys[j]
  }

  datatype Error =
    | AccountMissing | AccountInUse | Unauthorized | InvalidParameter | FutureTimestamp | StaleProof
    | Ed25519VerificationFailed | InvalidNonce | ArithmeticOverflow | InsufficientFunds
    | DeviceRevoked | DeviceAlreadyRevoked | DeviceAlreadyClaimed | InvalidDeviceState
    | InvalidStateTransition | DeviceLimitReached | DeviceMismatch
    | UntrustedOracle | InsufficientStake | NothingToClaim | AlreadyExists | NotFound
    | InvalidQuorumThreshold | AttestationRequired | AttestationNotFinalized
    | AttestationHashMismatch | InvalidLeafHash | AlreadyClaimed
    | MintPaused | TierLimitExceeded | ExcessiveEnergy | ZeroAmountMint | SupplyLimitExceeded
    | FounderPremineAlreadyMinted | UnauthorizedTokenAccountOwner | NotProducerOwner | NoActiveProposal
    | AlreadyInPool | NotInPool | PoolThresholdNotReached | DestinationMintMismatch
    | InvalidMemberList | DuplicateMember | AmountCapExceeded | ProposalNotActive | ProposalNotApproved
    | NotGovernanceMember | MemberAlreadyVoted | TimelockNotElapsed

  datatype Option<T> = None | Some(value: T)

  /** A `require!`. */
  datatype Outcome = Pass | Fail(error: Error) {
    predicate IsFailure() {
      Fail?
    }

    function PropagateFailure<S>(): Result<S>
      requires Fail?
    {
      Err(error)
    }
  }

  function Need(condition: bool, error: Error): (r: Outcome)
    ensures r == Pass <==> condition
  {
    if condition then Pass else Fail(error)
  }

  datatype Result<+S> = Ok(value: S) | Err(error: Error) {
    predicate IsFailure() {
      Err?
    }

    function PropagateFailure<T>(): Result<T>
      requires Err?
    {
      Err(error)
    }

    function Extract(): S
      requires Ok?
    {
      value
    }
  }

  /** A transaction commits its new state, or reports its error and leaves the state alone. */
  ghost predicate Commits<S(!new)>(spec: Result<S>, before: S, after: S, r: Result<()>) {
    match spec
    case Ok(state) => r == Ok(()) && after == state
    case Err(error) => r == Err(error) && after == before
  }

  /** The state after a transaction, whether or not it succeeded. */
  function Settle<S>(spec: Result<S>, before: S): S {
    if spec.Ok? then spec.value else before
  }
}
