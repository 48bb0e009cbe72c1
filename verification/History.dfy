/**
 What the history variables record: over any run, exactly the votes, refunds, milestone payouts and revenue claims of
 the run's successful calls.
 */
module History {
  import opened Types
  import opened State
  import opened Contributions
  import opened Payouts
  import opened MilestonePayouts
  import opened RevenueSharing
  import opened Governance
  import opened Registry
  import opened Invariants
  import opened Compose
  import opened Runs
  import opened BatchProofs
  import Buckets
  import ContributionProofs
  import PayoutProofs
  import RegistryProofs

  // ---- The record of one call ---------------------------------------------------------------

  /** What a successful call on campaign `id` adds to its history. */
  function Recorded(s: State, id: nat, op: Op, a: Audit): Audit
    requires id in s.entries
  {
    var e := s.entries[id];
    match op
    case DoCastVote(_, who, approve) => a.(ballots := a.ballots[who := approve])
    case DoUpdateDescription(_, _) => if e.campaign.isVerified then a.(ballots := map[]) else a
    case DoCancel(_) => a.(ballots := map[])
    case DoAdminCancel(_, _, _) => a.(ballots := map[])
    case DoPurge(_, _, finalize) => if finalize then a.(ballots := map[]) else a
    case DoClaimRefund(_, who) =>
      if e.campaign.isCancelled then a
      else a.(refundedBeforeCancel := a.refundedBeforeCancel + Get(e.ledger.contributions, who))
    case DoClaimMilestone(_, mid) =>
      (match CheckClaim(s, id, mid)
       case Err(_) => a
       case Ok(p) => a.(creatorPaid := a.creatorPaid + p.pay, feePaid := a.feePaid + p.feePay,
                        claimTerms := a.claimTerms + {(e.campaign.amountRaised, p.rate)}))
    case DoClaimRevenue(_, who) =>
      a.(claimPool := a.claimPool[who := e.revenue.pool],
         sweeper := if LastClaimant(e, who) then Some(who) else a.sweeper)
    case _ => a
  }

  /** Whether the call is a recording one on campaign `id`. */
  predicate RecordsFor(op: Op, id: nat) {
    match op
    case DoCastVote(x, _, _) => x == id
    case DoUpdateDescription(x, _) => x == id
    case DoCancel(x) => x == id
    case DoAdminCancel(_, x, _) => x == id
    case DoPurge(x, _, _) => x == id
    case DoClaimRefund(x, _) => x == id
    case DoClaimMilestone(x, _) => x == id
    case DoClaimRevenue(x, _) => x == id
    case _ => false
  }

  function HistoryStep(s: State, op: Op, id: nat, a: Audit): Audit {
    if Call(s, op).Ok? && RecordsFor(op, id) && id in s.entries then Recorded(s, id, op, a) else a
  }

  /** The history of campaign `id` read off the run. */
  function HistoryOf(s: State, ops: seq<Op>, id: nat): Audit {
    if ops == [] then NO_AUDIT
    else HistoryStep(Run(s, ops[..|ops| - 1]), ops[|ops| - 1], id, HistoryOf(s, ops[..|ops| - 1], id))
  }

  // ---- Calls that record nothing ------------------------------------------------------------

  /** No campaign's history changes. */
  ghost predicate Kept(s: State, s': State) {
    forall id :: AuditOf(s', id) == AuditOf(s, id)
  }

  lemma PutKept(s: State, s': State, id: nat)
    requires s'.audits == s.audits[id := AuditOf(s, id)]
    ensures Kept(s, s')
  {
  }

  /** A call that leaves every campaign's history alone. */
  ghost predicate Keeps(s: State, r: Result<State>) { r.Ok? ==> Kept(s, r.value) }

  lemma ContributeKept(s: State, id: nat, who: Address, amount: int)
    ensures Keeps(s, Contribute(s, id, who, amount))
  {
    hide Contribute, ContributeItem, Accounted, Kept;
    if Contribute(s, id, who, amount).Ok? {
      ContributionProofs.ContributeShape(s, id, who, amount);
      ContributionProofs.ItemShape(s, who, id, amount);
      PutKept(s, Contribute(s, id, who, amount).value, id);
    }
  }

  lemma PersonalCapKept(s: State, id: nat, who: Address, amount: int)
    ensures Keeps(s, SetPersonalCap(s, id, who, amount))
    ensures Keeps(s, RemovePersonalCap(s, id, who))
  {
    hide Kept;
    if SetPersonalCap(s, id, who, amount).Ok? {
      PutKept(s, SetPersonalCap(s, id, who, amount).value, id);
    }
    if RemovePersonalCap(s, id, who).Ok? {
      PutKept(s, RemovePersonalCap(s, id, who).value, id);
    }
  }

  lemma {:induction false} EachKept(s: State, who: Address, items: seq<Item>)
    requires ContributeEach(s, who, items).Ok?
    ensures Kept(s, ContributeEach(s, who, items).value)
    decreases |items|
  {
    hide Contribute;
    if items != [] {
      var front, last := items[..|items| - 1], items[|items| - 1];
      EachKept(s, who, front);
      ContributeKept(ContributeEach(s, who, front).value, last.0, who, last.1);
    }
  }

  lemma BatchKept(s: State, who: Address, items: seq<Item>)
    ensures Keeps(s, BatchContribute(s, who, items))
  {
    hide Kept, ContributeItems, ContributeEach, Affordable, Settle, Owed;
    if BatchContribute(s, who, items).Ok? {
      BatchRefinesSequence(s, who, items);
      EachKept(s, who, items);
    }
  }

  lemma WithdrawKept(s: State, id: nat)
    ensures Keeps(s, WithdrawFunds(s, id))
  {
    hide WithdrawFunds, SplitOf, Transfer, Kept;
    if WithdrawFunds(s, id).Ok? {
      PayoutProofs.WithdrawShape(s, id);
      PutKept(s, WithdrawFunds(s, id).value, id);
    }
  }

  lemma ReserveKept(s: State, id: nat)
    ensures Keeps(s, WithdrawReserve(s, id))
  {
    hide Transfer, Kept;
    if WithdrawReserve(s, id).Ok? {
      PutKept(s, WithdrawReserve(s, id).value, id);
    }
  }

  lemma MilestoneEditKept(s: State, id: nat, list: seq<Milestone>, admin: Address, mid: nat)
    ensures Keeps(s, SetMilestones(s, id, list))
    ensures Keeps(s, VerifyMilestone(s, admin, id, mid))
  {
    hide Kept, WellFormed, Normalized, MarkVerified;
    if SetMilestones(s, id, list).Ok? {
      PutKept(s, SetMilestones(s, id, list).value, id);
    }
    if VerifyMilestone(s, admin, id, mid).Ok? {
      PutKept(s, VerifyMilestone(s, admin, id, mid).value, id);
    }
  }

  lemma CreatorClaimKept(s: State, id: nat)
    ensures Keeps(s, ClaimCreatorRevenue(s, id))
  {
    hide CreatorClaim, Transfer, Kept;
    if ClaimCreatorRevenue(s, id).Ok? {
      PutKept(s, ClaimCreatorRevenue(s, id).value, id);
    }
  }

  lemma DepositKept(s: State, id: nat, amount: int)
    ensures Keeps(s, DepositRevenue(s, id, amount))
  {
    hide Transfer, Kept;
    if DepositRevenue(s, id, amount).Ok? {
      PutKept(s, DepositRevenue(s, id, amount).value, id);
    }
  }

  lemma AdminVerifyKept(s: State, id: nat)
    ensures Keeps(s, AdminVerify(s, id))
  {
  }

  lemma {:induction false} VerifyAllKept(s: State, ids: seq<nat>)
    ensures Kept(s, VerifyAll(s, ids).0)
    decreases |ids|
  {
    hide AdminVerify;
    if ids != [] {
      VerifyAllKept(s, ids[..|ids| - 1]);
      AdminVerifyKept(VerifyAll(s, ids[..|ids| - 1]).0, ids[|ids| - 1]);
    }
  }

  lemma VerificationKept(s: State, id: nat, ids: seq<nat>)
    ensures Keeps(s, VerifyCampaign(s, id))
    ensures Keeps(s, VerifyCampaigns(s, ids))
    ensures Keeps(s, VerifyWithVotes(s, id))
  {
    hide Kept, AdminVerify, VerifyAll, ThresholdFor, ApprovalBps;
    AdminVerifyKept(s, id);
    VerifyAllKept(s, Batch(ids));
    if VerifyWithVotes(s, id).Ok? {
      PutKept(s, VerifyWithVotes(s, id).value, id);
    }
  }

  lemma TermsKept(s: State, id: nat, days: nat, admin: Address, fee: nat)
    ensures Keeps(s, ExtendDeadline(s, id, days))
    ensures Keeps(s, SetFeeOverride(s, id, admin, fee))
  {
    hide Kept, DurationCap;
    if ExtendDeadline(s, id, days).Ok? {
      PutKept(s, ExtendDeadline(s, id, days).value, id);
    }
    if SetFeeOverride(s, id, admin, fee).Ok? {
      PutKept(s, SetFeeOverride(s, id, admin, fee).value, id);
    }
  }

  lemma CreateKept(s: State, p: CreateParams, token: Option<Address>)
    requires IdsInv(s)
    ensures Keeps(s, CreateCampaign(s, p, token))
  {
    hide Kept, Filed, Categorized, CheckParams, NewEntry, CreateCampaign;
    if CreateCampaign(s, p, token).Ok? {
      RegistryProofs.CreateShape(s, p, token);
      assert s.counters.campaigns + 1 !in s.entries;
      PutKept(s, CreateCampaign(s, p, token).value, s.counters.campaigns + 1);
    }
  }

  lemma OfferKept(s: State, id: nat, newCreator: Address)
    ensures Keeps(s, InitiateTransfer(s, id, newCreator))
    ensures Keeps(s, CancelTransfer(s, id))
  {
    hide Kept;
    if InitiateTransfer(s, id, newCreator).Ok? {
      PutKept(s, InitiateTransfer(s, id, newCreator).value, id);
    }
    if CancelTransfer(s, id).Ok? {
      PutKept(s, CancelTransfer(s, id).value, id);
    }
  }

  lemma IndexCallsKept(s: State, id: nat, tag: string)
    ensures Keeps(s, AcceptTransfer(s, id))
    ensures Keeps(s, AddTag(s, id, tag))
  {
    hide Kept, Filed, Unfiled, Locatable, CheckAccept, Handed, Buckets.Append;
    if AcceptTransfer(s, id).Ok? {
      PutKept(s, AcceptTransfer(s, id).value, id);
    }
    if AddTag(s, id, tag).Ok? {
      PutKept(s, AddTag(s, id, tag).value, id);
    }
  }

  // ---- Calls that record --------------------------------------------------------------------

  /** The call leaves other campaigns' histories alone and makes this one's `a`. */
  ghost predicate Writes(s: State, r: Result<State>, x: nat, a: Audit) {
    r.Ok? ==> x in s.entries && r.value.audits == s.audits[x := a]
  }

  lemma VoteWrites(s: State, x: nat, who: Address, approve: bool)
    ensures CastVote(s, x, who, approve).Ok? ==> x in s.entries
    ensures x in s.entries ==>
              Writes(s, CastVote(s, x, who, approve), x, Recorded(s, x, DoCastVote(x, who, approve), AuditOf(s, x)))
  {
    hide Counted, CountFits;
  }

  lemma EditWrites(s: State, x: nat, description: string)
    ensures UpdateDescription(s, x, description).Ok? ==> x in s.entries
    ensures x in s.entries ==>
              Writes(s, UpdateDescription(s, x, description), x, Recorded(s, x, DoUpdateDescription(x, description), AuditOf(s, x)))
  {
    hide WithoutTally;
  }

  lemma CancelWrites(s: State, x: nat)
    ensures CancelCampaign(s, x).Ok? ==> x in s.entries
    ensures x in s.entries ==> Writes(s, CancelCampaign(s, x), x, Recorded(s, x, DoCancel(x), AuditOf(s, x)))
  {
    hide CancelCounters, Transfer, CheckCancel, CancelledEntry;
  }

  lemma AdminCancelWrites(s: State, admin: Address, x: nat, reason: string)
    ensures AdminCancelCampaign(s, admin, x, reason).Ok? ==> x in s.entries
    ensures x in s.entries ==>
              Writes(s, AdminCancelCampaign(s, admin, x, reason), x, Recorded(s, x, DoAdminCancel(admin, x, reason), AuditOf(s, x)))
  {
    hide CancelCounters, CheckAdminCancel, CancelledEntry;
  }

  lemma PurgeWrites(s: State, x: nat, voters: seq<Address>, finalize: bool)
    ensures PurgeVotingState(s, x, voters, finalize).Ok? ==> x in s.entries
    ensures x in s.entries ==>
              Writes(s, PurgeVotingState(s, x, voters, finalize), x, Recorded(s, x, DoPurge(x, voters, finalize), AuditOf(s, x)))
  {
    hide Members, WithoutTally;
  }

  lemma RefundWrites(s: State, x: nat, who: Address)
    ensures ClaimRefund(s, x, who).Ok? ==> x in s.entries
    ensures x in s.entries ==> Writes(s, ClaimRefund(s, x, who), x, Recorded(s, x, DoClaimRefund(x, who), AuditOf(s, x)))
  {
    hide Transfer, CheckRefund, Refunded;
  }

  lemma MilestoneWrites(s: State, x: nat, mid: nat)
    ensures ClaimMilestone(s, x, mid).Ok? ==> x in s.entries
    ensures x in s.entries ==> Writes(s, ClaimMilestone(s, x, mid), x, Recorded(s, x, DoClaimMilestone(x, mid), AuditOf(s, x)))
  {
    hide CheckClaim, PayClaim, ClaimedEntry, AllOthersClaimed;
  }

  lemma RevenueWrites(s: State, x: nat, who: Address)
    ensures ClaimRevenue(s, x, who).Ok? ==> x in s.entries
    ensures x in s.entries ==> Writes(s, ClaimRevenue(s, x, who), x, Recorded(s, x, DoClaimRevenue(x, who), AuditOf(s, x)))
  {
    hide Claim, Claimable, Transfer, LastClaimant;
  }

  predicate Records(op: Op) {
    || op.DoCastVote? || op.DoUpdateDescription? || op.DoCancel? || op.DoAdminCancel? || op.DoPurge?
    || op.DoClaimRefund? || op.DoClaimMilestone? || op.DoClaimRevenue?
  }

  lemma EscrowKeeps(s: State, op: Op)
    requires EscrowCall(op) && !Records(op)
    ensures Keeps(s, CallEscrow(s, op))
  {
    hide Keeps, Contribute, BatchContribute, SetPersonalCap, RemovePersonalCap, WithdrawFunds, WithdrawReserve;
    match op
    case DoContribute(x, who, amount) => ContributeKept(s, x, who, amount);
    case DoBatchContribute(who, items) => BatchKept(s, who, items);
    case DoSetPersonalCap(x, who, amount) => PersonalCapKept(s, x, who, amount);
    case DoRemovePersonalCap(x, who) => PersonalCapKept(s, x, who, 0);
    case DoWithdrawFunds(x) => WithdrawKept(s, x);
    case DoWithdrawReserve(x) => ReserveKept(s, x);
  }

  lemma PayoutKeeps(s: State, op: Op)
    requires PayoutCall(op) && !Records(op)
    ensures Keeps(s, CallPayout(s, op))
  {
    hide Keeps, SetMilestones, VerifyMilestone, ClaimMilestone, DepositRevenue, ClaimRevenue, ClaimCreatorRevenue;
    match op
    case DoSetMilestones(x, list) => MilestoneEditKept(s, x, list, 0, 0);
    case DoVerifyMilestone(admin, x, mid) => MilestoneEditKept(s, x, [], admin, mid);
    case DoDepositRevenue(x, amount) => DepositKept(s, x, amount);
    case DoClaimCreatorRevenue(x) => CreatorClaimKept(s, x);
  }

  lemma VerificationKeeps(s: State, op: Op)
    requires VoteCall(op) && !Records(op)
    ensures Keeps(s, CallVote(s, op))
  {
    hide Keeps, VerifyCampaign, VerifyCampaigns, VerifyWithVotes, ExtendDeadline;
    match op
    case DoVerify(x) => VerificationKept(s, x, []);
    case DoVerifyMany(ids) => VerificationKept(s, 0, ids);
    case DoVerifyWithVotes(x) => VerificationKept(s, x, []);
    case DoExtendDeadline(x, days) => TermsKept(s, x, days, 0, 0);
  }

  lemma RegistryKeeps(s: State, op: Op)
    requires IdsInv(s) && RegistryCall(op)
    ensures Keeps(s, CallRegistry(s, op))
  {
    hide Keeps, IdsInv, CreateCampaign, InitiateTransfer, AcceptTransfer, CancelTransfer, AddTag;
    match op
    case DoCreate(params, token) => CreateKept(s, params, token);
    case DoInitiateTransfer(x, newCreator) => OfferKept(s, x, newCreator);
    case DoAcceptTransfer(x) => IndexCallsKept(s, x, []);
    case DoCancelTransfer(x) => OfferKept(s, x, 0);
    case DoAddTag(x, tag) => IndexCallsKept(s, x, tag);
  }

  lemma SettingsKept(s: State, fee: nat, admin: Address, category: Category, days: nat, bps: nat)
    ensures Keeps(s, UpdatePlatformFee(s, fee))
    ensures Keeps(s, SetVestingParams(s, admin, days, bps))
    ensures Keeps(s, SetCategoryDurationCap(s, admin, category, days))
  {
  }

  lemma OutsideKept(s: State, config: Config, coin: Address, who: Address, delta: int)
    ensures Keeps(s, Reconfigured(s, config))
    ensures Keeps(s, MovedOutside(s, coin, who, delta))
  {
    hide ValidConfig, Balance, Credit;
  }

  lemma ClockKept(s: State, paused: bool, seconds: nat, ledgers: nat)
    ensures Keeps(s, Ok(s.(paused := paused)))
    ensures Keeps(s, Ok(s.(now := s.now + seconds, ledgerSeq := s.ledgerSeq + ledgers)))
  {
    hide Kept;
    SameAudits(s, s.(paused := paused));
    SameAudits(s, s.(now := s.now + seconds, ledgerSeq := s.ledgerSeq + ledgers));
  }

  lemma SettingKeeps(s: State, op: Op)
    requires SettingCall(op)
    ensures Keeps(s, CallSetting(s, op))
  {
    hide Keeps, SetFeeOverride, UpdatePlatformFee, SetVestingParams, SetCategoryDurationCap, Reconfigured, MovedOutside;
    match op
    case DoSetFeeOverride(x, admin, fee) => TermsKept(s, x, 0, admin, fee);
    case DoUpdatePlatformFee(fee) => SettingsKept(s, fee, 0, Learner, 0, 0);
    case DoSetVestingParams(admin, days, bps) => SettingsKept(s, 0, admin, Learner, days, bps);
    case DoSetDurationCap(admin, category, days) => SettingsKept(s, 0, admin, category, days, 0);
    case Configure(config) => OutsideKept(s, config, 0, 0, 0);
    case SetPaused(paused) => ClockKept(s, paused, 0, 0);
    case Tick(seconds, ledgers) => ClockKept(s, false, seconds, ledgers);
    case OutsideMove(coin, who, delta) => OutsideKept(s, s.config, coin, who, delta);
  }

  lemma SameAudits(s: State, s': State)
    requires s'.audits == s.audits
    ensures Kept(s, s')
  {
  }

  lemma OthersKeep(s: State, op: Op)
    requires IdsInv(s) && !Records(op)
    ensures Keeps(s, Call(s, op))
  {
    hide Keeps, IdsInv, CallEscrow, CallPayout, CallVote, CallRegistry, CallSetting;
    if EscrowCall(op) {
      EscrowKeeps(s, op);
    } else if PayoutCall(op) {
      PayoutKeeps(s, op);
    } else if VoteCall(op) {
      VerificationKeeps(s, op);
    } else if RegistryCall(op) {
      RegistryKeeps(s, op);
    } else {
      SettingKeeps(s, op);
    }
  }

  /** The call changes the history of campaign `id` by what it records. */
  ghost predicate Tracks(s: State, op: Op, id: nat) {
    AuditOf(Next(s, op), id) == HistoryStep(s, op, id, AuditOf(s, id))
  }

  lemma KeepingTracks(s: State, op: Op, id: nat)
    requires !Records(op) && Keeps(s, Call(s, op))
    ensures Tracks(s, op, id)
  {
    hide Call, Recorded;
  }

  lemma WritingTracks(s: State, op: Op, x: nat, id: nat)
    requires RecordsFor(op, x) && (x in s.entries ==> Writes(s, Call(s, op), x, Recorded(s, x, op, AuditOf(s, x))))
    requires Call(s, op).Ok? ==> x in s.entries
    ensures Tracks(s, op, id)
  {
    hide Call, Recorded;
  }

  lemma RecordTracks(s: State, op: Op, id: nat)
    requires Records(op)
    ensures Tracks(s, op, id)
  {
    hide Tracks, Recorded, Writes, CastVote, UpdateDescription, CancelCampaign, AdminCancelCampaign, PurgeVotingState, ClaimRefund,
         ClaimMilestone, ClaimRevenue;
    match op
    case DoCastVote(x, who, approve) => VoteWrites(s, x, who, approve); WritingTracks(s, op, x, id);
    case DoUpdateDescription(x, description) => EditWrites(s, x, description); WritingTracks(s, op, x, id);
    case DoCancel(x) => CancelWrites(s, x); WritingTracks(s, op, x, id);
    case DoAdminCancel(admin, x, reason) => AdminCancelWrites(s, admin, x, reason); WritingTracks(s, op, x, id);
    case DoPurge(x, voters, finalize) => PurgeWrites(s, x, voters, finalize); WritingTracks(s, op, x, id);
    case DoClaimRefund(x, who) => RefundWrites(s, x, who); WritingTracks(s, op, x, id);
    case DoClaimMilestone(x, mid) => MilestoneWrites(s, x, mid); WritingTracks(s, op, x, id);
    case DoClaimRevenue(x, who) => RevenueWrites(s, x, who); WritingTracks(s, op, x, id);
  }

  /** Every call changes every history by exactly what it records. */
  lemma CallTracks(s: State, op: Op, id: nat)
    requires IdsInv(s)
    ensures Tracks(s, op, id)
  {
    hide Tracks, Keeps, IdsInv, Call;
    if Records(op) {
      RecordTracks(s, op, id);
    } else {
      OthersKeep(s, op);
      KeepingTracks(s, op, id);
    }
  }

  /** In every reachable state a campaign's history is what the run's successful calls record. */
  lemma {:induction false} HistoryIsTrace(s: State, ops: seq<Op>, id: nat)
    requires Init(s)
    ensures AuditOf(Run(s, ops), id) == HistoryOf(s, ops, id)
    decreases |ops|
  {
    hide Inv, Next, HistoryStep, Init;
    if ops == [] {
      StartsEmpty(s, id);
    } else {
      HistoryIsTrace(s, ops[..|ops| - 1], id);
      ReachableIds(s, ops[..|ops| - 1]);
      CallTracks(Run(s, ops[..|ops| - 1]), ops[|ops| - 1], id);
    }
  }

  lemma StartsEmpty(s: State, id: nat)
    requires Init(s)
    ensures AuditOf(s, id) == NO_AUDIT
  {
  }

  lemma ReachableIds(s: State, ops: seq<Op>)
    requires Init(s)
    ensures IdsInv(Run(s, ops))
  {
    hide Run, Init, EntriesInv, CountersInv, BankInv, IndexInv, ValidConfig, GlobalShares;
    ReachableInv(s, ops);
  }
}
