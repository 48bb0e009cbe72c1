/** src/voting.rs, src/campaigns/update.rs and the parts of src/admin.rs the proofs rest on. */
module Governance {
  import opened Types
  import opened State
  import opened Payouts

  // ---- Votes --------------------------------------------------------------------------------

  function Counted(v: Votes, voter: Address, approve: bool): Votes {
    if approve then
      v.(approve := v.approve + 1, approveWeight := v.approveWeight + 1, voted := v.voted + {voter})
    else
      v.(reject := v.reject + 1, rejectWeight := v.rejectWeight + 1, voted := v.voted + {voter})
  }

  predicate CountFits(v: Votes, approve: bool) {
    if approve then v.approve < U32_MAX && v.approveWeight < I128_MAX
    else v.reject < U32_MAX && v.rejectWeight < I128_MAX
  }

  function CastVote(s: State, id: nat, voter: Address, approve: bool): Result<State> {
    if s.paused then Err(ContractPaused)
    else
      :- Need(CanSign(voter), AuthFailed);
      var e :- GetEntry(s, id);
      var c := e.campaign;
      :- Need(!c.fundsWithdrawn, CampaignNotActive);
      :- Need(IsOpen(c), CampaignNotActive);
      :- Need(s.now <= c.deadline, DeadlinePassed);
      :- Need(!c.isVerified, CampaignAlreadyVerified);
      var balance := Balance(s.bank, s.config.platformToken, voter);
      :- Need(0 < balance, NotTokenHolder);
      :- Need(s.config.minVotingBalance <= balance, NotTokenHolder);
      :- Need(voter !in e.votes.voted, AlreadyVoted);
      :- Need(CountFits(e.votes, approve), Overflow);
      var a := AuditOf(s, id);
      Ok(Put(s, id, e.(votes := Counted(e.votes, voter, approve)), a.(ballots := a.ballots[voter := approve])))
  }

  function MarkedVerified(s: State, id: nat, e: Entry): State {
    Put(s, id, e.(campaign := e.campaign.(isVerified := true)), AuditOf(s, id))
    .(counters := s.counters.(verified := s.counters.verified + 1))
  }

  /** `admin_verify`: one campaign, the caller already checked. */
  function AdminVerify(s: State, id: nat): Result<State> {
    var e :- GetEntry(s, id);
    :- Need(!e.campaign.isCancelled, CampaignNotActive);
    :- Need(!e.campaign.isVerified, AdminVerificationConflict);
    :- Need(IsOpen(e.campaign), CampaignNotActive);
    :- Need(Allowed(PhaseOf(e.campaign), Verified), InvalidStateTransition);
    Ok(MarkedVerified(s, id, e))
  }

  function VerifyCampaign(s: State, id: nat): Result<State> {
    if !CanSign(s.config.admin) then Err(AuthFailed)
    else
      :- Need(!s.paused, ContractPaused);
      AdminVerify(s, id)
  }

  /** The batch after its first ids: failures are collected and change nothing. */
  function VerifyAll(s: State, ids: seq<nat>): (State, seq<nat>, seq<nat>) {
    if ids == [] then (s, [], [])
    else
      var (s1, verified, failed) := VerifyAll(s, ids[..|ids| - 1]);
      var id := ids[|ids| - 1];
      match AdminVerify(s1, id)
      case Ok(s2) => (s2, verified + [id], failed)
      case Err(_) => (s1, verified, failed + [id])
  }

  function Batch(ids: seq<nat>): seq<nat> { if |ids| < MAX_BATCH_VERIFY then ids else ids[..MAX_BATCH_VERIFY] }

  function VerifyCampaigns(s: State, ids: seq<nat>): Result<State> {
    if !CanSign(s.config.admin) then Err(AuthFailed)
    else
      :- Need(!s.paused, ContractPaused);
      Ok(VerifyAll(s, Batch(ids)).0)
  }

  function ThresholdFor(config: Config, category: Category): nat {
    if category in config.categoryApprovalBps then config.categoryApprovalBps[category] else config.approvalBps
  }

  function ApprovalBps(v: Votes): nat {
    if v.approve + v.reject == 0 then 0 else v.approve * BPS / (v.approve + v.reject)
  }

  function VerifyWithVotes(s: State, id: nat): Result<State> {
    if s.paused then Err(ContractPaused)
    else
      var e :- GetEntry(s, id);
      var c := e.campaign;
      :- Need(!c.isCancelled, CampaignNotActive);
      :- Need(!c.isVerified, CommunityVerificationConflict);
      :- Need(IsOpen(c), CampaignNotActive);
      :- Need(e.votes.approve + e.votes.reject <= U32_MAX, Overflow);
      :- Need(s.config.quorum <= e.votes.approve + e.votes.reject, VotingQuorumNotMet);
      :- Need(ThresholdFor(s.config, c.category) <= ApprovalBps(e.votes), VotingThresholdNotMet);
      :- Need(Allowed(PhaseOf(c), Verified), InvalidStateTransition);
      Ok(MarkedVerified(s, id, e))
  }

  function PurgeVotingState(s: State, id: nat, voters: seq<Address>, finalize: bool): Result<State> {
    if !CanSign(s.config.admin) then Err(AuthFailed)
    else
      var e :- GetEntry(s, id);
      :- Need(e.campaign.fundsWithdrawn || e.campaign.isCancelled, ValidationFailed);
      :- Need(0 < |voters| <= MAX_VOTERS_PER_PURGE, ValidationFailed);
      var v := e.votes.(voted := e.votes.voted - Members(voters));
      Ok(Put(s, id, e.(votes := if finalize then WithoutTally(v) else v),
             if finalize then AuditOf(s, id).(ballots := map[]) else AuditOf(s, id)))
  }

  // ---- Edits --------------------------------------------------------------------------------

  /** Editing a verified campaign revokes the badge and drops the tally it rested on. */
  function UpdateDescription(s: State, id: nat, description: string): Result<State> {
    var e :- GetCreatorEntry(s, id);
    :- Need(!s.paused, ContractPaused);
    :- Need(IsOpen(e.campaign), CampaignNotActive);
    :- Need(0 < |description| <= DESCRIPTION_MAX_LEN, ValidationFailed);
    var c := e.campaign.(description := description, isVerified := false);
    if e.campaign.isVerified then
      Ok(Put(s, id, e.(campaign := c, votes := WithoutTally(e.votes)), AuditOf(s, id).(ballots := map[]))
         .(counters := s.counters.(verified := Decrement(s.counters.verified))))
    else
      Ok(Put(s, id, e.(campaign := c), AuditOf(s, id)))
  }

  function DurationCap(config: Config, category: Category): nat {
    if category in config.durationCaps then config.durationCaps[category] else MAX_DURATION_DAYS
  }

  function ExtendDeadline(s: State, id: nat, days: nat): Result<State> {
    var e :- GetCreatorEntry(s, id);
    var c := e.campaign;
    :- Need(!s.paused, ContractPaused);
    :- Need(IsOpen(c), CampaignNotActive);
    :- Need(!c.deadlineExtended, DeadlineAlreadyExtended);
    :- Need(s.now < c.deadline, DeadlinePassed);
    :- Need(0 < days <= MAX_EXTENSION_DAYS, ExtensionTooLong);
    var deadline := c.deadline + days * SECONDS_PER_DAY;
    :- Need(FitsU64(deadline), Overflow);
    :- Need(e.terms.startTime <= deadline, Overflow);
    var total := (deadline - e.terms.startTime) / SECONDS_PER_DAY;
    :- Need(total <= DurationCap(s.config, c.category), InvalidDuration);
    :- Need(total <= MAX_DURATION_DAYS, InvalidDuration);
    Ok(Put(s, id, e.(campaign := c.(deadline := deadline, deadlineExtended := true)), AuditOf(s, id)))
  }

  // ---- Configuration ------------------------------------------------------------------------

  /** The bounds every admin setter enforces on the fields it writes. */
  predicate ValidConfig(g: Config) {
    && CanSign(g.admin)
    && g.platformFee <= PLATFORM_FEE_MAX_BPS
    && 0 <= g.maxPerTransaction && 0 < g.minGoal && 0 <= g.minVotingBalance
    && g.vestingBps <= BPS && g.vestingDelayDays <= MAX_DURATION_DAYS
    && (g.vestingDelayDays == 0 ==> g.vestingBps == 0)
    && (forall k | k in g.durationCaps :: 1 <= g.durationCaps[k] <= MAX_DURATION_DAYS)
    && 1 <= g.quorum <= MAX_QUORUM
    && MIN_APPROVAL_BPS <= g.approvalBps <= BPS
    && (forall k | k in g.categoryApprovalBps :: MIN_APPROVAL_BPS <= g.categoryApprovalBps[k] <= BPS)
  }

  /** What `init` leaves configured; fields it does not write read as their defaults. */
  function InitialConfig(admin: Address, token: Address, fee: nat): Config {
    Config(admin, token, fee, 0, FUNDING_GOAL_MIN, FUNDING_GOAL_MAX, 0, 0, false, map[], DEFAULT_QUORUM, DEFAULT_APPROVAL_BPS,
           map[], 0, {})
  }

  function UpdatePlatformFee(s: State, fee: nat): Result<State> {
    if !CanSign(s.config.admin) then Err(AuthFailed)
    else
      :- Need(fee <= PLATFORM_FEE_MAX_BPS, InvalidPlatformFee);
      Ok(s.(config := s.config.(platformFee := fee)))
  }

  function SetVestingParams(s: State, admin: Address, days: nat, bps: nat): Result<State> {
    if admin != s.config.admin then Err(NotAuthorized)
    else
      :- Need(CanSign(admin), AuthFailed);
      :- Need(!s.paused, ContractPaused);
      :- Need(bps <= BPS && days <= MAX_DURATION_DAYS, ValidationFailed);
      :- Need(0 < days || bps == 0, InvalidVestingDelay);
      Ok(s.(config := s.config.(vestingDelayDays := days, vestingBps := bps)))
  }

  function SetCategoryDurationCap(s: State, admin: Address, category: Category, days: nat): Result<State> {
    if admin != s.config.admin then Err(NotAuthorized)
    else
      :- Need(CanSign(admin), AuthFailed);
      :- Need(1 <= days <= MAX_DURATION_DAYS, ValidationFailed);
      Ok(s.(config := s.config.(durationCaps := s.config.durationCaps[category := days])))
  }

  function SetFeeOverride(s: State, id: nat, admin: Address, fee: nat): Result<State> {
    if admin != s.config.admin then Err(NotAuthorized)
    else
      :- Need(CanSign(admin), AuthFailed);
      var e :- GetEntry(s, id);
      :- Need(fee <= PLATFORM_FEE_MAX_BPS, InvalidPlatformFee);
      Ok(Put(s, id, e.(campaign := e.campaign.(feeOverride := Some(fee))), AuditOf(s, id)))
  }
}
