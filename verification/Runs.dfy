/** Whole runs: every entry point as a call, any order, any outcome. */
module Runs {
  import opened Types
  import opened State
  import opened Contributions
  import opened Payouts
  import opened MilestonePayouts
  import opened RevenueSharing
  import opened Governance
  import opened Registry
  import opened Invariants
  import opened Compose
  import ContributionProofs
  import PayoutProofs
  import MilestoneSound
  import RevenueProofs
  import GovernanceProofs
  import RegistryProofs
  import BatchProofs
  import Sums
  import Buckets

  datatype Op =
    | DoCreate(params: CreateParams, token: Option<Address>)
    | DoContribute(id: nat, who: Address, amount: int)
    | DoBatchContribute(who: Address, items: seq<Item>)
    | DoClaimRefund(id: nat, who: Address)
    | DoSetPersonalCap(id: nat, who: Address, amount: int)
    | DoRemovePersonalCap(id: nat, who: Address)
    | DoWithdrawFunds(id: nat)
    | DoWithdrawReserve(id: nat)
    | DoCancel(id: nat)
    | DoAdminCancel(admin: Address, id: nat, reason: string)
    | DoSetMilestones(id: nat, list: seq<Milestone>)
    | DoVerifyMilestone(admin: Address, id: nat, mid: nat)
    | DoClaimMilestone(id: nat, mid: nat)
    | DoDepositRevenue(id: nat, amount: int)
    | DoClaimRevenue(id: nat, who: Address)
    | DoClaimCreatorRevenue(id: nat)
    | DoCastVote(id: nat, who: Address, approve: bool)
    | DoVerify(id: nat)
    | DoVerifyMany(ids: seq<nat>)
    | DoVerifyWithVotes(id: nat)
    | DoPurge(id: nat, voters: seq<Address>, finalize: bool)
    | DoUpdateDescription(id: nat, description: string)
    | DoExtendDeadline(id: nat, days: nat)
    | DoInitiateTransfer(id: nat, newCreator: Address)
    | DoAcceptTransfer(id: nat)
    | DoCancelTransfer(id: nat)
    | DoAddTag(id: nat, tag: string)
    | DoSetFeeOverride(id: nat, admin: Address, fee: nat)
    | DoUpdatePlatformFee(fee: nat)
    | DoSetVestingParams(admin: Address, days: nat, bps: nat)
    | DoSetDurationCap(admin: Address, category: Category, days: nat)
      // Every other admin setter at once, the clock, and tokens moving outside the contract.
    | Configure(config: Config)
    | SetPaused(paused: bool)
    | Tick(seconds: nat, ledgers: nat)
    | OutsideMove(coin: Address, who: Address, delta: int)

  function Reconfigured(s: State, config: Config): Result<State> {
    if !(ValidConfig(config) && config.platformToken == s.config.platformToken) then Err(ValidationFailed)
    else
      Ok(s.(config := config))
  }

  /** Outsiders mint, burn and transfer among themselves; to the contract they can only give. */
  function MovedOutside(s: State, token: Address, who: Address, delta: int): Result<State> {
    if !(0 <= Balance(s.bank, token, who) + delta && (who == SELF ==> 0 <= delta)) then Err(TransferFailed)
    else
      Ok(s.(bank := Credit(s.bank, token, who, delta)))
  }

  // Contributions, refunds, withdrawals and cancellations.

  predicate EscrowCall(op: Op) {
    op.DoContribute? || op.DoBatchContribute? || op.DoClaimRefund? || op.DoSetPersonalCap? ||
    op.DoRemovePersonalCap? || op.DoWithdrawFunds? || op.DoWithdrawReserve? || op.DoCancel? || op.DoAdminCancel?
  }

  function CallEscrow(s: State, op: Op): Result<State>
    requires EscrowCall(op)
  {
    match op
    case DoContribute(id, who, amount) => Contribute(s, id, who, amount)
    case DoBatchContribute(who, items) => BatchContribute(s, who, items)
    case DoClaimRefund(id, who) => ClaimRefund(s, id, who)
    case DoSetPersonalCap(id, who, amount) => SetPersonalCap(s, id, who, amount)
    case DoRemovePersonalCap(id, who) => RemovePersonalCap(s, id, who)
    case DoWithdrawFunds(id) => WithdrawFunds(s, id)
    case DoWithdrawReserve(id) => WithdrawReserve(s, id)
    case DoCancel(id) => CancelCampaign(s, id)
    case DoAdminCancel(admin, id, reason) => AdminCancelCampaign(s, admin, id, reason)
  }

  // Milestones and revenue.

  predicate PayoutCall(op: Op) {
    op.DoSetMilestones? || op.DoVerifyMilestone? || op.DoClaimMilestone? || op.DoDepositRevenue? ||
    op.DoClaimRevenue? || op.DoClaimCreatorRevenue?
  }

  function CallPayout(s: State, op: Op): Result<State>
    requires PayoutCall(op)
  {
    match op
    case DoSetMilestones(id, list) => SetMilestones(s, id, list)
    case DoVerifyMilestone(admin, id, mid) => VerifyMilestone(s, admin, id, mid)
    case DoClaimMilestone(id, mid) => ClaimMilestone(s, id, mid)
    case DoDepositRevenue(id, amount) => DepositRevenue(s, id, amount)
    case DoClaimRevenue(id, who) => ClaimRevenue(s, id, who)
    case DoClaimCreatorRevenue(id) => ClaimCreatorRevenue(s, id)
  }

  // Votes, verification and edits.

  predicate VoteCall(op: Op) {
    op.DoCastVote? || op.DoVerify? || op.DoVerifyMany? || op.DoVerifyWithVotes? || op.DoPurge? ||
    op.DoUpdateDescription? || op.DoExtendDeadline?
  }

  function CallVote(s: State, op: Op): Result<State>
    requires VoteCall(op)
  {
    match op
    case DoCastVote(id, who, approve) => CastVote(s, id, who, approve)
    case DoVerify(id) => VerifyCampaign(s, id)
    case DoVerifyMany(ids) => VerifyCampaigns(s, ids)
    case DoVerifyWithVotes(id) => VerifyWithVotes(s, id)
    case DoPurge(id, voters, finalize) => PurgeVotingState(s, id, voters, finalize)
    case DoUpdateDescription(id, description) => UpdateDescription(s, id, description)
    case DoExtendDeadline(id, days) => ExtendDeadline(s, id, days)
  }

  // Creation, transfer and tags.

  predicate RegistryCall(op: Op) {
    op.DoCreate? || op.DoInitiateTransfer? || op.DoAcceptTransfer? || op.DoCancelTransfer? || op.DoAddTag?
  }

  function CallRegistry(s: State, op: Op): Result<State>
    requires RegistryCall(op)
  {
    match op
    case DoCreate(params, token) => CreateCampaign(s, params, token)
    case DoInitiateTransfer(id, newCreator) => InitiateTransfer(s, id, newCreator)
    case DoAcceptTransfer(id) => AcceptTransfer(s, id)
    case DoCancelTransfer(id) => CancelTransfer(s, id)
    case DoAddTag(id, tag) => AddTag(s, id, tag)
  }

  // Settings, the clock and the world outside.

  predicate SettingCall(op: Op) {
    op.DoSetFeeOverride? || op.DoUpdatePlatformFee? || op.DoSetVestingParams? || op.DoSetDurationCap? ||
    op.Configure? || op.SetPaused? || op.Tick? || op.OutsideMove?
  }

  function CallSetting(s: State, op: Op): Result<State>
    requires SettingCall(op)
  {
    match op
    case DoSetFeeOverride(id, admin, fee) => SetFeeOverride(s, id, admin, fee)
    case DoUpdatePlatformFee(fee) => UpdatePlatformFee(s, fee)
    case DoSetVestingParams(admin, days, bps) => SetVestingParams(s, admin, days, bps)
    case DoSetDurationCap(admin, category, days) => SetCategoryDurationCap(s, admin, category, days)
    case Configure(config) => Reconfigured(s, config)
    case SetPaused(paused) => Ok(s.(paused := paused))
    case Tick(seconds, ledgers) => Ok(s.(now := s.now + seconds, ledgerSeq := s.ledgerSeq + ledgers))
    case OutsideMove(coin, who, delta) => MovedOutside(s, coin, who, delta)
  }

  function Call(s: State, op: Op): Result<State> {
    if EscrowCall(op) then CallEscrow(s, op)
    else if PayoutCall(op) then CallPayout(s, op)
    else if VoteCall(op) then CallVote(s, op)
    else if RegistryCall(op) then CallRegistry(s, op)
    else CallSetting(s, op)
  }

  /** The host reverts a call that returns an error. */
  function Next(s: State, op: Op): State {
    match Call(s, op)
    case Ok(s') => s'
    case Err(_) => s
  }

  function Run(s: State, ops: seq<Op>): State {
    if ops == [] then s else Next(Run(s, ops[..|ops| - 1]), ops[|ops| - 1])
  }

  /** The contract just initialised, at any time, in a world that already holds tokens. */
  ghost predicate Init(s: State) {
    && ValidConfig(s.config)
    && s.entries == map[] && s.audits == map[]
    && s.counters == Counters(0, 0, 0, 0)
    && s.totalRaised == 0
    && s.index == Index(map[], map[], map[], map[], map[])
    && (forall k | k in s.bank :: 0 <= s.bank[k])
  }

  lemma InitIndex()
    ensures RegistryProofs.Indexed(Index(map[], map[], map[], map[], map[]), map[], map[], map[])
  {
    assert Buckets.Packed(Buckets.EMPTY) && Buckets.Flat(Buckets.EMPTY) == [];
    assert forall a: Address :: Owned(map[], a) == {};
    assert BucketLengths(Buckets.EMPTY) == map[];
  }

  lemma InitInv(s: State)
    requires Init(s)
    ensures Inv(s)
  {
    InitIndex();
    assert Owners(s) == map[] && Categories(s) == map[] && TagLists(s) == map[];
    assert IndexInv(s) by { hide PositionsInv, OwnersInv, CategoryInv, TagInv; }
    hide PositionsInv, OwnersInv, CategoryInv, TagInv, IndexInv, ValidConfig;
    assert GlobalShares(s) == map[];
    assert ActiveIds(s) == {} && VerifiedIds(s) == {} && CancelledIds(s) == {};
    forall token: Address
      ensures 0 <= Surplus(s, token)
    {
      assert Holdings(s, token) == map[];
    }
  }

  // ---- One call -----------------------------------------------------------------------------

  function Given(op: Op, token: Address): int {
    if op.OutsideMove? && op.who == SELF && op.coin == token then op.delta else 0
  }

  ghost predicate SoundCall(s: State, op: Op) {
    Call(s, op).Ok? ==>
      && Inv(Call(s, op).value)
      && Evolves(s, Call(s, op).value)
      && (forall token: Address :: Surplus(Call(s, op).value, token) == Surplus(s, token) + Given(op, token))
  }

  lemma SettingSound(s: State, op: Op)
    requires Inv(s) && (op.Configure? || op.SetPaused? || op.Tick?)
    ensures Sound(s, CallSetting(s, op))
  {
    hide Inv, Sound, ValidConfig;
    GovernanceProofs.ConfigFrom(s);
    if CallSetting(s, op).Ok? {
      GovernanceProofs.SettingsSound(s, CallSetting(s, op).value);
    } else {
      NothingSound(s, CallSetting(s, op).error);
    }
  }

  lemma EscrowCallSound(s: State, op: Op)
    requires Inv(s) && EscrowCall(op)
    ensures Sound(s, CallEscrow(s, op))
  {
    hide Inv, Sound,
         Contribute, BatchContribute, ClaimRefund, SetPersonalCap, RemovePersonalCap, WithdrawFunds, WithdrawReserve,
         CancelCampaign, AdminCancelCampaign;
    match op
    case DoContribute(id, who, amount) => ContributionProofs.ContributeSound(s, id, who, amount);
    case DoBatchContribute(who, items) => BatchProofs.BatchSound(s, who, items);
    case DoClaimRefund(id, who) => ContributionProofs.ClaimRefundSound(s, id, who);
    case DoSetPersonalCap(id, who, amount) => ContributionProofs.SetPersonalCapSound(s, id, who, amount);
    case DoRemovePersonalCap(id, who) => ContributionProofs.RemovePersonalCapSound(s, id, who);
    case DoWithdrawFunds(id) => PayoutProofs.WithdrawFundsSound(s, id);
    case DoWithdrawReserve(id) => PayoutProofs.WithdrawReserveSound(s, id);
    case DoCancel(id) => PayoutProofs.CancelCampaignSound(s, id);
    case DoAdminCancel(admin, id, reason) => PayoutProofs.AdminCancelSound(s, admin, id, reason);
  }

  lemma PayoutCallSound(s: State, op: Op)
    requires Inv(s) && PayoutCall(op)
    ensures Sound(s, CallPayout(s, op))
  {
    hide Inv, Sound,
         SetMilestones, VerifyMilestone, ClaimMilestone, DepositRevenue, ClaimRevenue, ClaimCreatorRevenue;
    match op
    case DoSetMilestones(id, list) => MilestoneSound.SetMilestonesSound(s, id, list);
    case DoVerifyMilestone(admin, id, mid) => MilestoneSound.VerifyMilestoneSound(s, admin, id, mid);
    case DoClaimMilestone(id, mid) => MilestoneSound.ClaimMilestoneSound(s, id, mid);
    case DoDepositRevenue(id, amount) => RevenueProofs.DepositRevenueSound(s, id, amount);
    case DoClaimRevenue(id, who) => RevenueProofs.ClaimRevenueSound(s, id, who);
    case DoClaimCreatorRevenue(id) => RevenueProofs.ClaimCreatorRevenueSound(s, id);
  }

  lemma VoteCallSound(s: State, op: Op)
    requires Inv(s) && VoteCall(op)
    ensures Sound(s, CallVote(s, op))
  {
    hide Inv, Sound,
         CastVote, VerifyCampaign, VerifyCampaigns, VerifyWithVotes, PurgeVotingState, UpdateDescription,
         ExtendDeadline;
    match op
    case DoCastVote(id, who, approve) => GovernanceProofs.CastVoteSound(s, id, who, approve);
    case DoVerify(id) => GovernanceProofs.VerifyCampaignSound(s, id);
    case DoVerifyMany(ids) => GovernanceProofs.VerifyCampaignsSound(s, ids);
    case DoVerifyWithVotes(id) => GovernanceProofs.VerifyWithVotesSound(s, id);
    case DoPurge(id, voters, finalize) => GovernanceProofs.PurgeSound(s, id, voters, finalize);
    case DoUpdateDescription(id, description) => GovernanceProofs.UpdateDescriptionSound(s, id, description);
    case DoExtendDeadline(id, days) => GovernanceProofs.ExtendDeadlineSound(s, id, days);
  }

  lemma RegistryCallSound(s: State, op: Op)
    requires Inv(s) && RegistryCall(op)
    ensures Sound(s, CallRegistry(s, op))
  {
    hide Inv, Sound,
         CreateCampaign, InitiateTransfer, AcceptTransfer, CancelTransfer, AddTag;
    match op
    case DoCreate(params, token) => RegistryProofs.CreateCampaignSound(s, params, token);
    case DoInitiateTransfer(id, newCreator) => GovernanceProofs.TransferOfferSound(s, id, newCreator);
    case DoAcceptTransfer(id) => RegistryProofs.AcceptTransferSound(s, id);
    case DoCancelTransfer(id) => GovernanceProofs.TransferOfferSound(s, id, SELF);
    case DoAddTag(id, tag) => RegistryProofs.AddTagSound(s, id, tag);
  }

  lemma SettingCallSound(s: State, op: Op)
    requires Inv(s) && SettingCall(op) && !op.OutsideMove?
    ensures Sound(s, CallSetting(s, op))
  {
    hide Inv, Sound,
         SetFeeOverride, UpdatePlatformFee, SetVestingParams, SetCategoryDurationCap, Reconfigured;
    match op
    case DoSetFeeOverride(id, admin, fee) => GovernanceProofs.SetFeeOverrideSound(s, id, admin, fee);
    case DoUpdatePlatformFee(fee) => GovernanceProofs.UpdatePlatformFeeSound(s, fee);
    case DoSetVestingParams(admin, days, bps) => GovernanceProofs.SetVestingParamsSound(s, admin, days, bps);
    case DoSetDurationCap(admin, category, days) => GovernanceProofs.SetCategoryDurationCapSound(s, admin, category, days);
    case Configure(_) => SettingSound(s, op);
    case SetPaused(_) => SettingSound(s, op);
    case Tick(_, _) => SettingSound(s, op);
  }

  /** Every entry point of the contract keeps the invariant, takes nothing back and keeps the surplus to the unit. */
  lemma EveryCallSound(s: State, op: Op)
    requires Inv(s) && !op.OutsideMove?
    ensures Sound(s, Call(s, op))
  {
    hide Inv, Sound, CallEscrow, CallPayout, CallVote, CallRegistry, CallSetting;
    if EscrowCall(op) {
      EscrowCallSound(s, op);
    } else if PayoutCall(op) {
      PayoutCallSound(s, op);
    } else if VoteCall(op) {
      VoteCallSound(s, op);
    } else if RegistryCall(op) {
      RegistryCallSound(s, op);
    } else {
      SettingCallSound(s, op);
    }
  }

  lemma OutsideSound(s: State, token: Address, who: Address, delta: int)
    requires Inv(s) && MovedOutside(s, token, who, delta).Ok?
    ensures var s' := MovedOutside(s, token, who, delta).value;
            && Inv(s') && Evolves(s, s')
            && forall t: Address :: Surplus(s', t) == Surplus(s, t) + if t == token && who == SELF then delta else 0
  {
    hide EntriesInv, IdsInv, CountersInv, IndexInv, ValidConfig, GlobalShares, Holdings;
    var s' := MovedOutside(s, token, who, delta).value;
    GovernanceProofs.EntriesSame(s, s');
    GovernanceProofs.CampaignsSame(s, s');
    assert forall t: Address :: Surplus(s', t) == Surplus(s, t) + if t == token && who == SELF then delta else 0;
    assert forall k | k in s'.bank :: 0 <= s'.bank[k];
    assert BankInv(s');
  }

  lemma CallSound(s: State, op: Op)
    requires Inv(s)
    ensures SoundCall(s, op)
  {
    hide Inv, Evolves, Surplus, MovedOutside;
    if op.OutsideMove? {
      if Call(s, op).Ok? {
        OutsideSound(s, op.coin, op.who, op.delta);
      }
    } else {
      EveryCallSound(s, op);
      SoundIs(s, op);
    }
  }

  lemma SoundIs(s: State, op: Op)
    requires Sound(s, Call(s, op)) && !op.OutsideMove?
    ensures SoundCall(s, op)
  {
    hide Inv, Evolves, Surplus, Call;
  }

  lemma NextKeeps(s: State, op: Op)
    requires Inv(s)
    ensures Inv(Next(s, op)) && Evolves(s, Next(s, op))
  {
    hide Inv, Surplus, Call;
    CallSound(s, op);
    if Call(s, op).Err? {
      assert Evolves(s, s);
    }
  }

  // ---- Runs ---------------------------------------------------------------------------------

  /** Every state a run reaches satisfies the invariant. */
  lemma {:induction false} RunInv(s: State, ops: seq<Op>)
    requires Inv(s)
    ensures Inv(Run(s, ops))
    decreases |ops|
  {
    hide Inv, Next;
    if ops != [] {
      RunInv(s, ops[..|ops| - 1]);
      NextKeeps(Run(s, ops[..|ops| - 1]), ops[|ops| - 1]);
    }
  }

  lemma ReachableInv(s: State, ops: seq<Op>)
    requires Init(s)
    ensures Inv(Run(s, ops))
  {
    InitInv(s);
    RunInv(s, ops);
  }

  /** The state before the `i`-th call. */
  function At(s: State, ops: seq<Op>, i: nat): State
    requires i <= |ops|
  {
    Run(s, ops[..i])
  }

  lemma AtNext(s: State, ops: seq<Op>, i: nat)
    requires i < |ops|
    ensures At(s, ops, i + 1) == Next(At(s, ops, i), ops[i])
  {
    hide Next;
    assert ops[..i + 1][..i] == ops[..i];
  }

  /** Later states of a run evolve from earlier ones. */
  lemma {:induction false} RunEvolves(s: State, ops: seq<Op>, i: nat, j: nat)
    requires Inv(s) && i <= j <= |ops|
    ensures Evolves(At(s, ops, i), At(s, ops, j))
    decreases j - i
  {
    hide Inv, Next, Evolves, Run;
    RunInv(s, ops[..i]);
    if i == j {
      EvolvesRefl(At(s, ops, i));
    } else {
      RunEvolves(s, ops, i, j - 1);
      AtNext(s, ops, j - 1);
      RunInv(s, ops[..j - 1]);
      NextKeeps(At(s, ops, j - 1), ops[j - 1]);
      GovernanceProofs.EvolvesTransitive(At(s, ops, i), At(s, ops, j - 1), At(s, ops, j));
    }
  }

  lemma EvolvesRefl(s: State)
    ensures Evolves(s, s)
  {
  }

  /** The `i`-th call of the run succeeds. */
  predicate Succeeds(s: State, ops: seq<Op>, i: nat) {
    i < |ops| && Call(At(s, ops, i), ops[i]).Ok?
  }

  // ---- Conservation -------------------------------------------------------------------------

  function GivenIn(ops: seq<Op>, s: State, token: Address): int {
    if ops == [] then 0
    else
      var s1 := Run(s, ops[..|ops| - 1]);
      GivenIn(ops[..|ops| - 1], s, token) + if Call(s1, ops[|ops| - 1]).Ok? then Given(ops[|ops| - 1], token) else 0
  }

  /**
   Over any run the contract's balance of a token is what its campaigns' books say it holds, plus what it
   had spare at the start and what outsiders gave it since: no call creates, loses or misplaces a unit.
   */
  lemma {:induction false} TokensConserved(s: State, ops: seq<Op>, token: Address)
    requires Inv(s)
    ensures Balance(Run(s, ops).bank, token, SELF)
            == Sums.Sum(Holdings(Run(s, ops), token)) + Surplus(s, token) + GivenIn(ops, s, token)
    decreases |ops|
  {
    hide Inv, Call, Given;
    if ops != [] {
      var front, last := ops[..|ops| - 1], ops[|ops| - 1];
      var s1 := Run(s, front);
      TokensConserved(s, front, token);
      RunInv(s, front);
      CallSound(s1, last);
    }
  }
}
