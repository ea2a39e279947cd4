/** Governance: one proposal at a time, voted by three to five members, executed once after a
    seven-day timelock. */
module Governance {
  import opened Arithmetic
  import opened MapSums
  import opened Protocol

  const MIN_MEMBERS: nat := 3
  const MAX_MEMBERS: nat := 5
  const AMOUNT_CAP: nat := 1_000_000_000_000_000
  const TITLE_MAX: nat := 64
  const TIMELOCK: nat := 7 * 24 * 60 * 60
  const TIME_MAX: Time := 0x7FFF_FFFF_FFFF_FFFF

  datatype Status = Pending | Approved | Rejected | Cancelled | Executed

  datatype Proposal = Proposal(
    id: U64, proposer: Key, amount: U64, status: Status, approvedAt: Time, executedAt: Time,
    yes: nat, no: nat, snapshot: nat, voted: seq<Key>)
  {
    /** More than half of the snapshot voted, and more for than against. */
    predicate QuorumMet() {
      yes > no && yes + no > snapshot / 2
    }

    predicate AllVoted() {
      yes + no >= snapshot
    }

    predicate Executable(now: Time) {
      status == Approved && Unlocks(approvedAt) <= now
    }
  }

  /** `approved_at.saturating_add(TIMELOCK_DELAY)`. */
  function Unlocks(approvedAt: Time): Time {
    Min(approvedAt + TIMELOCK, TIME_MAX)
  }

  datatype State = State(
    members: seq<Key>, count: U64, active: U64, proposals: map<U64, Proposal>, supply: U64, maxSupply: U64)

  predicate ValidMembers(members: seq<Key>) {
    MIN_MEMBERS <= |members| <= MAX_MEMBERS && Distinct(members)
  }

  /** The verdict of `validate_members`: the length first, then the first repetition. */
  function CheckMembers(members: seq<Key>): (checked: Outcome)
    ensures checked == Pass <==> ValidMembers(members)
  {
    if |members| < MIN_MEMBERS || MAX_MEMBERS < |members| then Fail(InvalidMemberList)
    else if !Distinct(members) then Fail(DuplicateMember)
    else Pass
  }

  function Initial(members: seq<Key>, maxSupply: U64): State {
    State(members, 0, 0, map[], 0, maxSupply)
  }

  // ------------------------------------------------------------- the handlers

  function UpdateMembers(s: State, members: seq<Key>, isAuthority: bool): Result<State> {
    var checked := CheckMembers(members);
    :- Need(isAuthority, Unauthorized);
    :- checked;
    Ok(s.(members := members))
  }

  function NewProposal(id: U64, proposer: Key, amount: U64, snapshot: nat): Proposal {
    Proposal(id, proposer, amount, Pending, 0, 0, 0, 0, snapshot, [])
  }

  /** The proposals once the previous active one, if any, is cancelled. */
  function Superseded(s: State): map<U64, Proposal> {
    if s.active != 0 && s.active in s.proposals then
      s.proposals[s.active := s.proposals[s.active].(status := Cancelled)]
    else s.proposals
  }

  /** `prev` is the proposal account passed for cancellation; 0 for none. */
  function Create(s: State, id: U64, proposer: Key, amount: U64, titleLength: nat, prev: U64, isAuthority: bool): Result<State> {
    var replacing := s.active != 0;
    :- Need(isAuthority, Unauthorized);
    :- Need(prev != 0 ==> prev in s.proposals, AccountMissing);
    :- Need(id !in s.proposals, AccountInUse);
    :- Need(s.count < U64_MAX, ArithmeticOverflow);
    :- Need(id == s.count + 1, InvalidParameter);
    :- Need(0 < amount, ZeroAmountMint);
    :- Need(amount <= AMOUNT_CAP, AmountCapExceeded);
    :- Need(titleLength <= TITLE_MAX, InvalidParameter);
    :- Need(replacing ==> prev != 0, ProposalNotActive);
    :- Need(replacing ==> prev == s.active, InvalidParameter);
    :- Need(replacing ==> s.proposals[prev].status == Pending, ProposalNotActive);
    Ok(s.(proposals := Superseded(s)[id := NewProposal(id, proposer, amount, |s.members|)], count := id, active := id))
  }

  function Count(p: Proposal, voter: Key, yes: bool): Proposal {
    p.(yes := if yes then p.yes + 1 else p.yes, no := if yes then p.no else p.no + 1, voted := p.voted + [voter])
  }

  function Decide(p: Proposal, now: Time): Proposal {
    if p.QuorumMet() then p.(status := Approved, approvedAt := now)
    else if p.AllVoted() then p.(status := Rejected)
    else p
  }

  function Vote(s: State, id: U64, voter: Wallet, yes: bool, now: Time): Result<State> {
    var known := id in s.proposals;
    :- Need(known, AccountMissing);
    :- Need(voter in s.members, NotGovernanceMember);
    :- Need(s.active != 0, NoActiveProposal);
    :- Need(s.active == id, ProposalNotActive);
    :- Need(s.proposals[id].status == Pending, ProposalNotActive);
    :- Need(voter !in s.proposals[id].voted, MemberAlreadyVoted);
    var p := Decide(Count(s.proposals[id], voter, yes), now);
    Ok(s.(proposals := s.proposals[id := p], active := if p.status == Pending then s.active else 0))
  }

  function Mint(s: State, id: U64, destinationOwner: Key, now: Time): Result<State> {
    var known := id in s.proposals;
    :- Need(known, AccountMissing);
    var p := s.proposals[id];
    :- Need(destinationOwner == p.proposer, Unauthorized);
    :- Need(p.id == id, InvalidParameter);
    :- Need(p.status == Approved, ProposalNotApproved);
    :- Need(p.Executable(now), TimelockNotElapsed);
    :- Need(s.supply + p.amount <= U64_MAX, ArithmeticOverflow);
    :- Need(s.supply + p.amount <= s.maxSupply, SupplyLimitExceeded);
    Ok(s.(proposals := s.proposals[id := p.(status := Executed, executedAt := now)], supply := s.supply + p.amount))
  }

  // ------------------------------------------------------------- runs

  datatype Step =
    | MembersStep(members: seq<Key>, isAuthority: bool)
    | CreateStep(id: U64, proposer: Key, amount: U64, titleLength: nat, prev: U64, isAuthority: bool)
    | VoteStep(id: U64, voter: Wallet, yes: bool, now: Time)
    | MintStep(id: U64, destinationOwner: Key, now: Time)
    | SupplyStep(supply: U64)  // the rest of the protocol moves the vault's supply

  function Attempt(s: State, step: Step): Result<State> {
    match step
    case MembersStep(members, isAuthority) => UpdateMembers(s, members, isAuthority)
    case CreateStep(id, proposer, amount, titleLength, prev, isAuthority) => Create(s, id, proposer, amount, titleLength, prev, isAuthority)
    case VoteStep(id, voter, yes, now) => Vote(s, id, voter, yes, now)
    case MintStep(id, owner, now) => Mint(s, id, owner, now)
    case SupplyStep(supply) => Ok(s.(supply := supply))
  }

  function Next(s: State, step: Step): State {
    Settle(Attempt(s, step), s)
  }

  function Run(start: State, steps: seq<Step>): State {
    if steps == [] then start else Next(Run(start, steps[..|steps| - 1]), steps[|steps| - 1])
  }

  // ------------------------------------------------------------- the invariant

  ghost predicate ProposalOk(s: State, id: U64)
    requires id in s.proposals
  {
    var p := s.proposals[id];
    && p.id == id && 1 <= id <= s.count
    && 1 <= p.amount <= AMOUNT_CAP
    && MIN_MEMBERS <= p.snapshot <= MAX_MEMBERS
    && Distinct(p.voted) && |p.voted| == p.yes + p.no <= p.snapshot
    && (p.status == Pending <==> id == s.active)
    && (p.status == Pending ==> !p.QuorumMet() && !p.AllVoted())
    && (p.status == Approved || p.status == Executed ==> p.QuorumMet())
    && (p.status == Rejected ==> p.AllVoted() && !p.QuorumMet())
    && (p.status == Executed ==> Unlocks(p.approvedAt) <= p.executedAt)
  }

  ghost predicate Inv(s: State) {
    && ValidMembers(s.members)
    && (s.active != 0 ==> s.active in s.proposals)
    && (forall id: U64 :: id in s.proposals <==> 1 <= id <= s.count)
    && (forall id {:trigger ProposalOk(s, id)} :: id in s.proposals ==> ProposalOk(s, id))
  }

  lemma {:induction false} CreateKeeps(s: State, id: U64, proposer: Key, amount: U64, titleLength: nat, prev: U64, isAuthority: bool)
    requires Inv(s)
    ensures Inv(Settle(Create(s, id, proposer, amount, titleLength, prev, isAuthority), s))
  {
    var r := Create(s, id, proposer, amount, titleLength, prev, isAuthority);
    if r.Ok? {
      var t := r.value;
      forall j {:trigger ProposalOk(t, j)} | j in t.proposals ensures ProposalOk(t, j) {
        if j != id {
          assert ProposalOk(s, j);
        }
      }
    }
  }

  lemma {:induction false} VoteKeeps(s: State, id: U64, voter: Wallet, yes: bool, now: Time)
    requires Inv(s)
    ensures Inv(Settle(Vote(s, id, voter, yes, now), s))
  {
    var r := Vote(s, id, voter, yes, now);
    if r.Ok? {
      var t := r.value;
      forall j {:trigger ProposalOk(t, j)} | j in t.proposals ensures ProposalOk(t, j) {
        assert ProposalOk(s, j);
      }
    }
  }

  lemma {:induction false} MintKeeps(s: State, id: U64, owner: Key, now: Time)
    requires Inv(s)
    ensures Inv(Settle(Mint(s, id, owner, now), s))
  {
    var r := Mint(s, id, owner, now);
    if r.Ok? {
      var t := r.value;
      forall j {:trigger ProposalOk(t, j)} | j in t.proposals ensures ProposalOk(t, j) {
        assert ProposalOk(s, j);
      }
    }
  }

  lemma {:induction false} OtherStepsKeep(s: State, step: Step)
    requires Inv(s) && (step.MembersStep? || step.SupplyStep?)
    ensures Inv(Next(s, step))
  {
    var t := Next(s, step);
    forall j {:trigger ProposalOk(t, j)} | j in t.proposals ensures ProposalOk(t, j) {
      assert ProposalOk(s, j);
    }
  }

  lemma {:induction false} NextKeeps(s: State, step: Step)
    requires Inv(s)
    ensures Inv(Next(s, step))
  {
    match step
    case CreateStep(id, proposer, amount, titleLength, prev, isAuthority) => CreateKeeps(s, id, proposer, amount, titleLength, prev, isAuthority);
    case VoteStep(id, voter, yes, now) => VoteKeeps(s, id, voter, yes, now);
    case MintStep(id, owner, now) => MintKeeps(s, id, owner, now);
    case _ => OtherStepsKeep(s, step);
  }

  lemma {:induction false} RunKeeps(start: State, steps: seq<Step>)
    requires Inv(start)
    ensures Inv(Run(start, steps))
  {
    if steps == [] {
    } else {
      RunKeeps(start, steps[..|steps| - 1]);
      NextKeeps(Run(start, steps[..|steps| - 1]), steps[|steps| - 1]);
    }
  }

  // ------------------------------------------------------------- what every run keeps

  /** The pending proposals are exactly the active one, or none. */
  lemma {:induction false} PendingIsActive(members: seq<Key>, maxSupply: U64, steps: seq<Step>, id: U64)
    requires ValidMembers(members)
    ensures var s := Run(Initial(members, maxSupply), steps);
            (id in s.proposals && s.proposals[id].status == Pending) <==> (id != 0 && id == s.active)
  {
    var s := Run(Initial(members, maxSupply), steps);
    RunKeeps(Initial(members, maxSupply), steps);
    if id in s.proposals {
      assert ProposalOk(s, id);
    }
  }

  /** More votes for than against, and more than half of the snapshot voted. */
  predicate Carried(p: Proposal) {
    p.no < p.yes && p.snapshot < 2 * (p.yes + p.no)
  }

  /** Recorded votes are distinct and never more than the snapshot, even when the members are replaced
      while voting is open; an approved or executed proposal was carried by more than half of its snapshot,
      with at least two votes for it; a rejected one was not, with every vote cast; and a pending one awaits
      votes that can still decide it. */
  lemma {:induction false} VotesWithinSnapshot(members: seq<Key>, maxSupply: U64, steps: seq<Step>, id: U64)
    requires ValidMembers(members) && id in Run(Initial(members, maxSupply), steps).proposals
    ensures var p := Run(Initial(members, maxSupply), steps).proposals[id];
            && Distinct(p.voted) && |p.voted| == p.yes + p.no <= p.snapshot && 3 <= p.snapshot <= 5
            && (p.status in {Approved, Executed} ==> 2 <= p.yes && p.no < p.yes && p.snapshot < 2 * (p.yes + p.no))
            && (p.status == Rejected ==> p.yes + p.no == p.snapshot && p.yes <= p.no)
            && (p.status == Pending ==> p.yes + p.no < p.snapshot && !Carried(p))
  {
    var s := Run(Initial(members, maxSupply), steps);
    RunKeeps(Initial(members, maxSupply), steps);
    assert ProposalOk(s, id);
  }

  /** The authority alone replaces the members, by three to five distinct ones, and nothing else changes. */
  lemma {:induction false} MembersIff(s: State, members: seq<Key>, isAuthority: bool)
    ensures UpdateMembers(s, members, isAuthority).Ok? <==> isAuthority && 3 <= |members| <= 5 && Distinct(members)
    ensures UpdateMembers(s, members, isAuthority).Ok? ==> UpdateMembers(s, members, isAuthority).value == s.(members := members)
  {
  }

  /** A vote goes through exactly for a member that has not voted, on the active proposal. */
  lemma {:induction false} VoteIff(members: seq<Key>, maxSupply: U64, steps: seq<Step>, id: U64, voter: Wallet, yes: bool, now: Time)
    requires ValidMembers(members)
    ensures var s := Run(Initial(members, maxSupply), steps);
            Vote(s, id, voter, yes, now).Ok? <==>
              id in s.proposals && s.active == id && voter in s.members && voter !in s.proposals[id].voted
  {
    var s := Run(Initial(members, maxSupply), steps);
    RunKeeps(Initial(members, maxSupply), steps);
    if id in s.proposals {
      assert ProposalOk(s, id);
    }
  }

  /** It counts on its side, and decides: approved exactly when the counts now carry the proposal, rejected
      exactly when they do not and nobody is left to vote, and otherwise pending and active as before. Every
      other proposal stands. */
  lemma {:induction false} VoteDecides(members: seq<Key>, maxSupply: U64, steps: seq<Step>, id: U64, voter: Wallet, yes: bool, now: Time)
    requires ValidMembers(members) && Vote(Run(Initial(members, maxSupply), steps), id, voter, yes, now).Ok?
    ensures var s := Run(Initial(members, maxSupply), steps);
            var t := Vote(s, id, voter, yes, now).value;
            && t.proposals.Keys == s.proposals.Keys && id in s.proposals
            && (forall j :: j in s.proposals && j != id ==> t.proposals[j] == s.proposals[j])
            && var p, q := s.proposals[id], t.proposals[id];
            && q.voted == p.voted + [voter] && q.snapshot == p.snapshot && q.amount == p.amount && q.proposer == p.proposer
            && q.yes == p.yes + (if yes then 1 else 0) && q.no == p.no + (if yes then 0 else 1)
            && (q.status == Approved <==> q.no < q.yes && q.snapshot < 2 * (q.yes + q.no))
            && (q.status == Rejected <==> q.yes + q.no == q.snapshot && q.yes <= q.no)
            && (q.status == Pending <==> q.yes + q.no < q.snapshot && !(q.no < q.yes && q.snapshot < 2 * (q.yes + q.no)))
            && (q.status == Approved ==> q.approvedAt == now)
            && t.active == (if q.status == Pending then id else 0)
  {
    var s := Run(Initial(members, maxSupply), steps);
    RunKeeps(Initial(members, maxSupply), steps);
    assert ProposalOk(s, id);
  }

  /** A proposal is created exactly by the authority, under the next number, for at most a tenth of a percent of
      the cap, with a short title, and naming the active proposal where there is one. */
  lemma {:induction false} CreateIff(
    members: seq<Key>, maxSupply: U64, steps: seq<Step>, id: U64, proposer: Key, amount: U64, titleLength: nat, prev: U64, isAuthority: bool)
    requires ValidMembers(members)
    ensures var s := Run(Initial(members, maxSupply), steps);
            Create(s, id, proposer, amount, titleLength, prev, isAuthority).Ok? <==>
              && isAuthority && id == s.count + 1 && 1 <= amount <= 1_000_000_000_000_000 && titleLength <= 64
              && (if s.active == 0 then prev == 0 || prev in s.proposals else prev == s.active)
  {
    var s := Run(Initial(members, maxSupply), steps);
    RunKeeps(Initial(members, maxSupply), steps);
    if s.active != 0 {
      assert ProposalOk(s, s.active);
    }
  }

  /** It opens with no votes and as many seats as there are members then, and cancels the active one. */
  lemma {:induction false} CreateOpens(s: State, id: U64, proposer: Key, amount: U64, titleLength: nat, prev: U64, isAuthority: bool)
    requires Inv(s) && Create(s, id, proposer, amount, titleLength, prev, isAuthority).Ok?
    ensures var t := Create(s, id, proposer, amount, titleLength, prev, isAuthority).value;
            && t.count == t.active == id && id !in s.proposals && t.proposals.Keys == s.proposals.Keys + {id}
            && t.proposals[id] == Proposal(id, proposer, amount, Pending, 0, 0, 0, 0, |s.members|, [])
            && (forall j :: j in s.proposals && j != s.active ==> t.proposals[j] == s.proposals[j])
            && (s.active != 0 ==>
                  s.active in s.proposals && t.proposals[s.active] == s.proposals[s.active].(status := Cancelled))
  {
  }

  /** The step that created the proposal, and its terms. */
  ghost predicate Creates(s: State, step: Step, id: U64, proposer: Key, amount: U64, snapshot: nat) {
    && step.CreateStep? && step.id == id && step.proposer == proposer && step.amount == amount && step.isAuthority
    && Attempt(s, step).Ok? && snapshot == |s.members|
  }

  ghost predicate CreatedAt(start: State, steps: seq<Step>, j: nat, id: U64, proposer: Key, amount: U64, snapshot: nat)
    requires j < |steps|
  {
    Creates(Run(start, steps[..j]), steps[j], id, proposer, amount, snapshot)
  }

  lemma {:induction false} TermsStand(s: State, step: Step, id: U64)
    requires Inv(s) && id in Next(s, step).proposals
    ensures var q := Next(s, step).proposals[id];
            || (id in s.proposals && s.proposals[id].proposer == q.proposer && s.proposals[id].amount == q.amount
                  && s.proposals[id].snapshot == q.snapshot)
            || Creates(s, step, id, q.proposer, q.amount, q.snapshot)
  {
    if step.CreateStep? && Attempt(s, step).Ok? {
      CreateOpens(s, step.id, step.proposer, step.amount, step.titleLength, step.prev, step.isAuthority);
    }
  }

  /** Every proposal keeps the terms its creation gave it: proposer, amount, and for a snapshot the number of
      members at that moment, whoever is replaced later. */
  lemma {:induction false} TermsWereCreated(start: State, steps: seq<Step>, id: U64)
    requires Inv(start) && start.proposals == map[] && id in Run(start, steps).proposals
    ensures var p := Run(start, steps).proposals[id];
            exists j: nat :: j < |steps| && CreatedAt(start, steps, j, id, p.proposer, p.amount, p.snapshot)
  {
    if steps == [] {
    } else {
      var last := |steps| - 1;
      var before, p := steps[..last], Run(start, steps).proposals[id];
      RunKeeps(start, before);
      TermsStand(Run(start, before), steps[last], id);
      if Creates(Run(start, before), steps[last], id, p.proposer, p.amount, p.snapshot) {
        assert CreatedAt(start, steps, last, id, p.proposer, p.amount, p.snapshot);
      } else {
        TermsWereCreated(start, before, id);
        var j: nat :| j < |before| && CreatedAt(start, before, j, id, p.proposer, p.amount, p.snapshot);
        assert before[..j] == steps[..j];
        assert CreatedAt(start, steps, j, id, p.proposer, p.amount, p.snapshot);
      }
    }
  }

  /** Seven days after the approval; a time past the clock's range is never reached before its very end. */
  predicate TimelockOver(approvedAt: Time, now: Time) {
    approvedAt + 604_800 <= now || now == 0x7FFF_FFFF_FFFF_FFFF
  }

  /** An approved proposal mints exactly its amount, once its timelock is over, to its proposer's account, and
      while the supply stays within the cap. */
  lemma {:induction false} MintIff(members: seq<Key>, maxSupply: U64, steps: seq<Step>, id: U64, owner: Key, now: Time)
    requires ValidMembers(members)
    ensures var s := Run(Initial(members, maxSupply), steps);
            Mint(s, id, owner, now).Ok? <==>
              && id in s.proposals && s.proposals[id].status == Approved && owner == s.proposals[id].proposer
              && TimelockOver(s.proposals[id].approvedAt, now) && s.supply + s.proposals[id].amount <= s.maxSupply
    ensures var s := Run(Initial(members, maxSupply), steps);
            Mint(s, id, owner, now).Ok? ==>
              var t := Mint(s, id, owner, now).value;
              && id in s.proposals && t.supply == s.supply + s.proposals[id].amount
              && t == s.(supply := t.supply, proposals := s.proposals[id := s.proposals[id].(status := Executed, executedAt := now)])
  {
    var s := Run(Initial(members, maxSupply), steps);
    RunKeeps(Initial(members, maxSupply), steps);
    if id in s.proposals {
      assert ProposalOk(s, id);
    }
  }

  /** The step is a member's vote that goes through on the proposal then active. */
  ghost predicate Votes(s: State, step: Step, id: U64, voter: Key) {
    && step.VoteStep? && step.id == id && step.voter == voter
    && Attempt(s, step).Ok? && voter in s.members && s.active == id
  }

  /** The vote that turns the proposal from pending to approved. */
  ghost predicate Approves(s: State, step: Step, id: U64, at: Time) {
    && step.VoteStep? && Votes(s, step, id, step.voter) && step.now == at
    && id in s.proposals && s.proposals[id].status == Pending
    && id in Next(s, step).proposals && Next(s, step).proposals[id].status == Approved
  }

  ghost predicate ApprovedAt(start: State, steps: seq<Step>, j: nat, id: U64, at: Time)
    requires j < |steps|
  {
    Approves(Run(start, steps[..j]), steps[j], id, at)
  }

  predicate WasApproved(s: State, id: U64) {
    id in s.proposals && s.proposals[id].status in {Approved, Executed}
  }

  lemma {:induction false} ApprovalStep(s: State, step: Step, id: U64)
    requires Inv(s) && WasApproved(Next(s, step), id)
    ensures (WasApproved(s, id) && Next(s, step).proposals[id].approvedAt == s.proposals[id].approvedAt)
         || Approves(s, step, id, Next(s, step).proposals[id].approvedAt)
  {
    if id in s.proposals {
      assert ProposalOk(s, id);
    }
  }

  lemma {:induction false} ApprovalStands(s: State, step: Step, id: U64)
    requires Inv(s)
    ensures WasApproved(s, id) ==>
      WasApproved(Next(s, step), id) && Next(s, step).proposals[id].approvedAt == s.proposals[id].approvedAt
    ensures forall at :: Approves(s, step, id, at) ==>
      WasApproved(Next(s, step), id) && Next(s, step).proposals[id].approvedAt == at
  {
    if id in s.proposals {
      assert ProposalOk(s, id);
    }
  }

  lemma {:induction false} ApprovalWasVoted(start: State, steps: seq<Step>, id: U64)
    requires Inv(start) && start.proposals == map[] && WasApproved(Run(start, steps), id)
    ensures exists j: nat :: j < |steps| && ApprovedAt(start, steps, j, id, Run(start, steps).proposals[id].approvedAt)
  {
    if steps == [] {
    } else {
      var last := |steps| - 1;
      var before := steps[..last];
      var at := Run(start, steps).proposals[id].approvedAt;
      RunKeeps(start, before);
      ApprovalStep(Run(start, before), steps[last], id);
      if WasApproved(Run(start, before), id) && Run(start, before).proposals[id].approvedAt == at {
        ApprovalWasVoted(start, before, id);
        var j: nat :| j < |before| && ApprovedAt(start, before, j, id, at);
        assert before[..j] == steps[..j];
        assert ApprovedAt(start, steps, j, id, at);
      } else {
        assert ApprovedAt(start, steps, last, id, at);
      }
    }
  }

  /** A proposal keeps the time of the vote that approved it, whatever follows. */
  lemma {:induction false} ApprovalTimeStands(start: State, steps: seq<Step>, j: nat, id: U64, at: Time)
    requires Inv(start) && j < |steps| && ApprovedAt(start, steps, j, id, at)
    ensures WasApproved(Run(start, steps), id) && Run(start, steps).proposals[id].approvedAt == at
  {
    var last := |steps| - 1;
    var before := steps[..last];
    RunKeeps(start, before);
    ApprovalStands(Run(start, before), steps[last], id);
    if j == last {
      assert Approves(Run(start, before), steps[last], id, at);
    } else {
      assert before[..j] == steps[..j];
      ApprovalTimeStands(start, before, j, id, at);
    }
  }

  /** A mint happens only after a vote turned that proposal from pending to approved, and only once the
      timelock counted from the approving vote has run out. */
  lemma {:induction false} MintWaitsForTimelock(members: seq<Key>, maxSupply: U64, steps: seq<Step>, id: U64, owner: Key, now: Time)
    requires ValidMembers(members)
    requires Mint(Run(Initial(members, maxSupply), steps), id, owner, now).Ok?
    ensures exists j: nat, at: Time :: j < |steps| && ApprovedAt(Initial(members, maxSupply), steps, j, id, at)
    ensures forall j: nat, at: Time ::
      j < |steps| && ApprovedAt(Initial(members, maxSupply), steps, j, id, at) ==>
        at + 604_800 <= now || now == 0x7FFF_FFFF_FFFF_FFFF
  {
    var start := Initial(members, maxSupply);
    RunKeeps(start, []);
    ApprovalWasVoted(start, steps, id);
    forall j: nat, at: Time | j < |steps| && ApprovedAt(start, steps, j, id, at)
      ensures at + 604_800 <= now || now == 0x7FFF_FFFF_FFFF_FFFF
    {
      ApprovalTimeStands(start, steps, j, id, at);
    }
  }

  predicate Recorded(s: State, id: U64, voter: Key) {
    id in s.proposals && voter in s.proposals[id].voted
  }

  ghost predicate VotedAt(start: State, steps: seq<Step>, j: nat, id: U64, voter: Key)
    requires j < |steps|
  {
    Votes(Run(start, steps[..j]), steps[j], id, voter)
  }

  lemma {:induction false} RecordStep(s: State, step: Step, id: U64, voter: Key)
    requires Recorded(Next(s, step), id, voter)
    ensures Recorded(s, id, voter) || Votes(s, step, id, voter)
  {
  }

  /** Every recorded voter was a member when it voted, on the proposal then active. */
  lemma {:induction false} VotersWereMembers(start: State, steps: seq<Step>, id: U64, voter: Key)
    requires start.proposals == map[] && Recorded(Run(start, steps), id, voter)
    ensures exists j: nat :: j < |steps| && VotedAt(start, steps, j, id, voter)
  {
    if steps == [] {
    } else {
      var last := |steps| - 1;
      var before := steps[..last];
      RecordStep(Run(start, before), steps[last], id, voter);
      if Recorded(Run(start, before), id, voter) {
        VotersWereMembers(start, before, id, voter);
        var j: nat :| j < |before| && VotedAt(start, before, j, id, voter);
        assert before[..j] == steps[..j];
        assert VotedAt(start, steps, j, id, voter);
      } else {
        assert VotedAt(start, steps, last, id, voter);
      }
    }
  }

  // ------------------------------------------------------------- emission

  predicate Minted(s: State, id: U64) {
    id in s.proposals && s.proposals[id].status == Executed
  }

  function Mints(start: State, steps: seq<Step>, id: U64): nat {
    if steps == [] then 0
    else
      var before, step := steps[..|steps| - 1], steps[|steps| - 1];
      Mints(start, before, id) + if step.MintStep? && step.id == id && Attempt(Run(start, before), step).Ok? then 1 else 0
  }

  lemma {:induction false} MintedStep(s: State, step: Step, id: U64)
    requires Inv(s)
    ensures Minted(s, id) ==> Minted(Next(s, step), id)
    ensures (step.MintStep? && step.id == id && Attempt(s, step).Ok?) <==> (!Minted(s, id) && Minted(Next(s, step), id))
  {
    if id in s.proposals {
      assert ProposalOk(s, id);
    }
  }

  /** Each proposal mints at most once. */
  lemma {:induction false} MintsAtMostOnce(start: State, steps: seq<Step>, id: U64)
    requires Inv(start) && start.proposals == map[]
    ensures Mints(start, steps, id) == if Minted(Run(start, steps), id) then 1 else 0
  {
    if steps == [] {
    } else {
      RunKeeps(start, steps[..|steps| - 1]);
      MintsAtMostOnce(start, steps[..|steps| - 1], id);
      MintedStep(Run(start, steps[..|steps| - 1]), steps[|steps| - 1], id);
    }
  }

  /** What governance has minted over a run. */
  function Emitted(start: State, steps: seq<Step>): nat {
    if steps == [] then 0
    else
      var before, step := steps[..|steps| - 1], steps[|steps| - 1];
      var s := Run(start, before);
      Emitted(start, before) + if step.MintStep? && Attempt(s, step).Ok? then s.proposals[step.id].amount else 0
  }

  function ExecutedAmount(p: Proposal): nat {
    if p.status == Executed then p.amount else 0
  }

  function Cap(p: Proposal): nat {
    AMOUNT_CAP
  }

  lemma {:induction false} EmissionStep(s: State, step: Step)
    requires Inv(s)
    ensures var t := Next(s, step);
            && Sum(t.proposals, ExecutedAmount) == Sum(s.proposals, ExecutedAmount)
                 + (if step.MintStep? && Attempt(s, step).Ok? then s.proposals[step.id].amount else 0)
            && Sum(t.proposals, Cap) + AMOUNT_CAP * s.count == Sum(s.proposals, Cap) + AMOUNT_CAP * t.count
  {
    var t := Next(s, step);
    if Attempt(s, step).Ok? {
      match step
      case CreateStep(id, proposer, amount, _, _, _) =>
        if s.active != 0 {
          SumUpdate(s.proposals, ExecutedAmount, s.active, s.proposals[s.active].(status := Cancelled));
          SumUpdate(s.proposals, Cap, s.active, s.proposals[s.active].(status := Cancelled));
        }
        SumUpdate(Superseded(s), ExecutedAmount, id, t.proposals[id]);
        SumUpdate(Superseded(s), Cap, id, t.proposals[id]);
      case VoteStep(id, _, _, _) =>
        SumUpdate(s.proposals, ExecutedAmount, id, t.proposals[id]);
        SumUpdate(s.proposals, Cap, id, t.proposals[id]);
      case MintStep(id, _, _) =>
        SumUpdate(s.proposals, ExecutedAmount, id, t.proposals[id]);
        SumUpdate(s.proposals, Cap, id, t.proposals[id]);
      case _ =>
    }
  }

  lemma {:induction false} EmissionIsExecuted(start: State, steps: seq<Step>)
    requires Inv(start) && start.proposals == map[] && start.count == 0
    ensures Emitted(start, steps) == Sum(Run(start, steps).proposals, ExecutedAmount)
    ensures Sum(Run(start, steps).proposals, Cap) == AMOUNT_CAP * Run(start, steps).count
  {
    if steps == [] {
      SumOfZeros(start.proposals, ExecutedAmount);
      SumOfZeros(start.proposals, Cap);
    } else {
      RunKeeps(start, steps[..|steps| - 1]);
      EmissionIsExecuted(start, steps[..|steps| - 1]);
      EmissionStep(Run(start, steps[..|steps| - 1]), steps[|steps| - 1]);
    }
  }

  /** Governance emission never exceeds a tenth of a percent of the cap for each proposal ever created. */
  lemma {:induction false} EmissionBounded(members: seq<Key>, maxSupply: U64, steps: seq<Step>)
    requires ValidMembers(members)
    ensures Emitted(Initial(members, maxSupply), steps) <= 1_000_000_000_000_000 * Run(Initial(members, maxSupply), steps).count
  {
    var start := Initial(members, maxSupply);
    var s := Run(start, steps);
    RunKeeps(start, []);
    RunKeeps(start, steps);
    EmissionIsExecuted(start, steps);
    forall id | id in s.proposals ensures ExecutedAmount(s.proposals[id]) <= Cap(s.proposals[id]) {
      assert ProposalOk(s, id);
    }
    SumMonotone(s.proposals, ExecutedAmount, Cap);
  }

  // ------------------------------------------------------------- the program

  class GovernanceProgram {
    const maxSupply: U64
    var members: seq<Key>
    var proposalCount: U64
    var activeProposal: U64
    var proposals: map<U64, Proposal>
    var supply: U64

    function Accounts(): State
      reads this
    {
      State(members, proposalCount, activeProposal, proposals, supply, maxSupply)
    }

    constructor (members: seq<Key>, maxSupply: U64)
      ensures Accounts() == Initial(members, maxSupply)
    {
      this.members, this.maxSupply := members, maxSupply;
      proposalCount, activeProposal, proposals, supply := 0, 0, map[], 0;
    }

    /** `validate_members`: three to five addresses, each new when it is reached. */
    method ValidateMembers(list: seq<Key>) returns (checked: Outcome)
      ensures checked == Pass <==> MIN_MEMBERS <= |list| <= MAX_MEMBERS && Distinct(list)
      ensures checked == Fail(InvalidMemberList) <==> |list| < MIN_MEMBERS || MAX_MEMBERS < |list|
      ensures checked == Fail(DuplicateMember) <==> MIN_MEMBERS <= |list| <= MAX_MEMBERS && !Distinct(list)
    {
      if |list| < MIN_MEMBERS || |list| > MAX_MEMBERS {
        return Fail(InvalidMemberList);
      }
      for i := 0 to |list|
        invariant Distinct(list[..i])
      {
        if list[i] in list[..i] {
          var j :| 0 <= j < i && list[j] == list[i];
          return Fail(DuplicateMember);
        }
      }
      assert list[..|list|] == list;
      checked := Pass;
    }

    method SetMembers(list: seq<Key>, isAuthority: bool) returns (r: Result<()>)
      modifies this
      ensures Commits(UpdateMembers(old(Accounts()), list, isAuthority), old(Accounts()), Accounts(), r)
    {
      var checked := ValidateMembers(list);
      :- Need(isAuthority, Unauthorized);
      :- checked;
      members := list;
      r := Ok(());
    }

    method CreateProposal(id: U64, proposer: Key, amount: U64, titleLength: nat, prev: U64, isAuthority: bool) returns (r: Result<()>)
      modifies this
      ensures Commits(Create(old(Accounts()), id, proposer, amount, titleLength, prev, isAuthority), old(Accounts()), Accounts(), r)
    {
      var known := prev in proposals;
      :- Need(isAuthority, Unauthorized);
      :- Need(prev != 0 ==> known, AccountMissing);
      :- Need(id !in proposals, AccountInUse);
      :- Need(proposalCount < U64_MAX, ArithmeticOverflow);
      :- Need(id == proposalCount + 1, InvalidParameter);
      :- Need(amount > 0, ZeroAmountMint);
      :- Need(amount <= AMOUNT_CAP, AmountCapExceeded);
      :- Need(titleLength <= TITLE_MAX, InvalidParameter);
      if activeProposal != 0 {
        :- Need(prev != 0, ProposalNotActive);
        :- Need(prev == activeProposal, InvalidParameter);
        :- Need(proposals[prev].status == Pending, ProposalNotActive);
        proposals := proposals[prev := proposals[prev].(status := Cancelled)];
      }
      proposals := proposals[id := NewProposal(id, proposer, amount, |members|)];
      proposalCount := id;
      activeProposal := id;
      r := Ok(());
    }

    method CastVote(id: U64, voter: Wallet, yes: bool, now: Time) returns (r: Result<()>)
      modifies this
      ensures Commits(Vote(old(Accounts()), id, voter, yes, now), old(Accounts()), Accounts(), r)
    {
      var known := id in proposals;
      :- Need(known, AccountMissing);
      var proposal := proposals[id];
      :- Need(voter in members, NotGovernanceMember);
      :- Need(activeProposal != 0, NoActiveProposal);
      :- Need(activeProposal == id, ProposalNotActive);
      :- Need(proposal.status == Pending, ProposalNotActive);
      :- Need(voter !in proposal.voted, MemberAlreadyVoted);
      if yes {
        proposal := proposal.(yes := proposal.yes + 1);
      } else {
        proposal := proposal.(no := proposal.no + 1);
      }
      proposal := proposal.(voted := proposal.voted + [voter]);
      if proposal.QuorumMet() {
        proposal := proposal.(status := Approved, approvedAt := now);
        activeProposal := 0;
      } else if proposal.AllVoted() {
        proposal := proposal.(status := Rejected);
        activeProposal := 0;
      }
      proposals := proposals[id := proposal];
      r := Ok(());
    }

    method MintProposal(id: U64, destinationOwner: Key, now: Time) returns (r: Result<()>)
      modifies this
      ensures Commits(Mint(old(Accounts()), id, destinationOwner, now), old(Accounts()), Accounts(), r)
    {
      var known := id in proposals;
      :- Need(known, AccountMissing);
      var proposal := proposals[id];
      :- Need(destinationOwner == proposal.proposer, Unauthorized);
      :- Need(proposal.id == id, InvalidParameter);
      :- Need(proposal.status == Approved, ProposalNotApproved);
      :- Need(proposal.Executable(now), TimelockNotElapsed);
      :- Need(supply + proposal.amount <= U64_MAX, ArithmeticOverflow);
      var newSupply := supply + proposal.amount;
      :- Need(newSupply <= maxSupply, SupplyLimitExceeded);
      supply := newSupply;
      proposal := proposal.(status := Executed);
      proposals := proposals[id := proposal.(executedAt := now)];
      r := Ok(());
    }
  }
}
