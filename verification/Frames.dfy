/** What each call writes to each campaign's record, and what it leaves alone. */
module Frames {
  import opened Types
  import opened State
  import opened Contributions
  import opened Payouts
  import opened MilestonePayouts
  import opened RevenueSharing
  import opened Governance
  import opened Registry
  import opened Invariants
  import opened Runs
  import Buckets
  import BatchProofs
  import ContributionProofs
  import RegistryProofs
  import Slices

  // ---- The change of one record -------------------------------------------------------------

  /** The campaign whose record the call is about. */
  predicate About(op: Op, x: nat) {
    match op
    case DoContribute(id, _, _) => id == x
    case DoClaimRefund(id, _) => id == x
    case DoSetPersonalCap(id, _, _) => id == x
    case DoRemovePersonalCap(id, _) => id == x
    case DoWithdrawFunds(id) => id == x
    case DoWithdrawReserve(id) => id == x
    case DoCancel(id) => id == x
    case DoAdminCancel(_, id, _) => id == x
    case DoSetMilestones(id, _) => id == x
    case DoVerifyMilestone(_, id, _) => id == x
    case DoClaimMilestone(id, _) => id == x
    case DoDepositRevenue(id, _) => id == x
    case DoClaimRevenue(id, _) => id == x
    case DoClaimCreatorRevenue(id) => id == x
    case DoCastVote(id, _, _) => id == x
    case DoVerify(id) => id == x
    case DoVerifyWithVotes(id) => id == x
    case DoPurge(id, _, _) => id == x
    case DoUpdateDescription(id, _) => id == x
    case DoExtendDeadline(id, _) => id == x
    case DoInitiateTransfer(id, _) => id == x
    case DoAcceptTransfer(id) => id == x
    case DoCancelTransfer(id) => id == x
    case DoAddTag(id, _) => id == x
    case DoSetFeeOverride(id, _, _) => id == x
    case _ => false
  }

  /** A list of milestones with those of the given id verified. */
  predicate Marks(mid: nat, list: seq<Milestone>, list': seq<Milestone>) {
    && |list'| == |list|
    && forall k | 0 <= k < |list| :: list'[k] == if list[k].id == mid then list[k].(verified := true) else list[k]
  }

  /** The same milestones, none of them verified. */
  predicate Unmarked(list: seq<Milestone>, list': seq<Milestone>) {
    && |list'| == |list|
    && forall k | 0 <= k < |list| :: list'[k] == list[k].(verified := false)
  }

  /** What a campaign keeps for good, and who may change the rest of what was agreed at its creation. */
  predicate TermsPart(op: Op, mine: bool, e: Entry, e': Entry) {
    var c, c' := e.campaign, e'.campaign;
    && e'.terms == e.terms
    && c'.id == c.id && c'.firstCreator == c.firstCreator && c'.fundingGoal == c.fundingGoal && c'.category == c.category
    && c'.hasRevenueSharing == c.hasRevenueSharing && c'.revenueShare == c.revenueShare && c'.maxPerUser == c.maxPerUser
    && c'.description == (if mine && op.DoUpdateDescription? then op.description else c.description)
    && c'.deadline == (if mine && op.DoExtendDeadline? then c.deadline + op.days * SECONDS_PER_DAY else c.deadline)
    && c'.deadlineExtended == ((mine && op.DoExtendDeadline?) || c.deadlineExtended)
    && c'.feeOverride == (if mine && op.DoSetFeeOverride? then Some(op.fee) else c.feeOverride)
    && e'.tags == (if mine && op.DoAddTag? then e.tags + [op.tag] else e.tags)
  }

  predicate OwnerPart(op: Op, mine: bool, c: Campaign, c': Campaign) {
    && (mine && op.DoAcceptTransfer? ==> c.pendingCreator.Some?)
    && c'.creator == (if mine && op.DoAcceptTransfer? then c.pendingCreator.GetOr(c.creator) else c.creator)
    && c'.pendingCreator == (if mine && op.DoInitiateTransfer? then Some(op.newCreator)
                             else if mine && (op.DoAcceptTransfer? || op.DoCancelTransfer?) then None
                             else c.pendingCreator)
  }

  predicate PhasePart(op: Op, mine: bool, c: Campaign, c': Campaign) {
    && c'.isCancelled == ((mine && (op.DoCancel? || op.DoAdminCancel?)) || c.isCancelled)
    && (c'.fundsWithdrawn == c.fundsWithdrawn || (mine && (op.DoWithdrawFunds? || op.DoClaimMilestone?)))
    && (mine && op.DoWithdrawFunds? ==> c'.fundsWithdrawn)
    && (c'.isVerified == c.isVerified || op.DoVerifyMany? || (mine && (op.DoVerify? || op.DoVerifyWithVotes? || op.DoUpdateDescription?)))
    && (mine && (op.DoVerify? || op.DoVerifyWithVotes?) ==> c'.isVerified)
    && (op.DoVerifyMany? && c.isVerified ==> c'.isVerified)
    && (mine && op.DoUpdateDescription? ==> !c'.isVerified)
  }

  /** The ledger of contributions; `funds`: the call may contribute to this campaign. */
  predicate LedgerPart(admin: Address, op: Op, mine: bool, e: Entry, e': Entry) {
    var funds := (mine && op.DoContribute?) || op.DoBatchContribute?;
    var refunds := mine && op.DoClaimRefund?;
    var l, l' := e.ledger, e'.ledger;
    && (!funds ==>
          && e'.campaign.amountRaised == e.campaign.amountRaised
          && e'.campaign.effectiveRaised
             == e.campaign.effectiveRaised - (if refunds then Get(l.contributions, op.who) else 0)
          && l'.contributions == (if refunds then l.contributions - {op.who} else l.contributions)
          && l'.lifetime == l.lifetime && l'.feeRecipient == l.feeRecipient
          && l'.burstLedger == l.burstLedger && l'.burstCount == l.burstCount)
    && (l'.feeRecipient == l.feeRecipient || l'.feeRecipient == Some(admin))
    && l'.personalCaps == (if mine && op.DoSetPersonalCap? then l.personalCaps[op.who := op.amount]
                           else if refunds || (mine && op.DoRemovePersonalCap?) then l.personalCaps - {op.who}
                           else l.personalCaps)
  }

  predicate HasVerified(list: seq<Milestone>, mid: nat) { exists k | 0 <= k < |list| :: list[k].id == mid && list[k].verified }

  /** A claim is of a verified milestone that has not been claimed. */
  predicate MilestonePart(op: Op, mine: bool, ms: Milestones, ms': Milestones) {
    && (mine && op.DoClaimMilestone? ==> op.mid !in ms.claimed && HasVerified(ms.list, op.mid))
    && (mine && op.DoVerifyMilestone? ==> ms.list != [])
    && ms'.claimed == (if mine && op.DoClaimMilestone? then ms.claimed + {op.mid} else ms.claimed)
    && (if mine && op.DoSetMilestones? then ms.list == [] && Unmarked(op.list, ms'.list)
        else if mine && op.DoVerifyMilestone? then Marks(op.mid, ms.list, ms'.list)
        else ms'.list == ms.list)
  }

  predicate ReservePart(op: Op, mine: bool, e: Entry, e': Entry) {
    if mine && op.DoWithdrawReserve? then e.reserve.Some? && e'.reserve == Some(e.reserve.value.(released := true))
    else e'.reserve == e.reserve || (mine && op.DoWithdrawFunds?)
  }

  predicate RevenuePart(op: Op, mine: bool, r: Revenue, r': Revenue) {
    && ((mine && op.DoCancel?) || r'.pool == r.pool + if mine && op.DoDepositRevenue? then op.amount else 0)
    && (if mine && op.DoClaimRevenue? then op.who in r'.claimed && r'.claimed == r.claimed[op.who := r'.claimed[op.who]]
        else r'.claimed == if mine && op.DoClaimRefund? then r.claimed - {op.who} else r.claimed)
    && (r'.distributed == r.distributed || (mine && op.DoClaimRevenue?))
    && (r'.claimants == r.claimants || (mine && op.DoClaimRevenue?))
    && (r'.creatorClaimed == r.creatorClaimed || (mine && op.DoClaimCreatorRevenue?))
  }

  /** Who has voted: a vote adds its voter, a purge of a closed campaign removes those it names, nothing else changes it. */
  predicate VotersPart(op: Op, mine: bool, v: Votes, v': Votes) {
    v'.voted == if mine && op.DoCastVote? then v.voted + {op.who}
                else if mine && op.DoPurge? then v.voted - (set w | w in op.voters)
                else v.voted
  }

  /** How a successful call may change the record of campaign `id`. */
  predicate Changes(admin: Address, op: Op, id: nat, e: Entry, e': Entry) {
    var mine := About(op, id);
    && TermsPart(op, mine, e, e')
    && OwnerPart(op, mine, e.campaign, e'.campaign)
    && PhasePart(op, mine, e.campaign, e'.campaign)
    && LedgerPart(admin, op, mine, e, e')
    && MilestonePart(op, mine, e.milestones, e'.milestones)
    && ReservePart(op, mine, e, e')
    && RevenuePart(op, mine, e.revenue, e'.revenue)
    && VotersPart(op, mine, e.votes, e'.votes)
  }

  /** The settings after a call: each setter writes its own. */
  function ConfigAfter(op: Op, g: Config): Config {
    match op
    case DoUpdatePlatformFee(fee) => g.(platformFee := fee)
    case DoSetVestingParams(_, days, bps) => g.(vestingDelayDays := days, vestingBps := bps)
    case DoSetDurationCap(_, category, days) => g.(durationCaps := g.durationCaps[category := days])
    case Configure(config) => config
    case _ => g
  }

  /** Settings, pause flag, clock and ledger number. */
  predicate Around(op: Op, s: State, s': State) {
    && s'.config == ConfigAfter(op, s.config)
    && s'.paused == (if op.SetPaused? then op.paused else s.paused)
    && s'.now == s.now + (if op.Tick? then op.seconds else 0)
    && s'.ledgerSeq == s.ledgerSeq + (if op.Tick? then op.ledgers else 0)
  }

  /** As it was around the campaigns. */
  predicate Quiet(s: State, s': State) {
    s'.config == s.config && s'.paused == s.paused && s'.now == s.now && s'.ledgerSeq == s.ledgerSeq
  }

  ghost predicate AllChange(s: State, op: Op, s': State) {
    && Around(op, s, s')
    && s'.entries.Keys == s.entries.Keys
    && (forall x | About(op, x) :: x in s.entries)
    && forall id | id in s.entries :: Changes(s.config.admin, op, id, s.entries[id], s'.entries[id])
  }

  /** A call that adds no campaign and changes the others as it may. */
  ghost predicate Framed(s: State, op: Op, r: Result<State>) { r.Ok? ==> AllChange(s, op, r.value) }

  /** What is about no campaign in particular changes none. */
  lemma Unchanged(admin: Address, op: Op, id: nat, e: Entry)
    requires !About(op, id)
    ensures Changes(admin, op, id, e, e)
  {
  }

  lemma QuietAround(s: State, op: Op, s': State, id: nat)
    requires Quiet(s, s') && About(op, id)
    ensures Around(op, s, s') && forall x | About(op, x) :: x == id
  {
  }

  lemma PutFramed(s: State, op: Op, s': State, id: nat, e': Entry)
    requires Quiet(s, s')
    requires id in s.entries && s'.entries == s.entries[id := e'] && About(op, id) && (forall x | x != id :: !About(op, x))
    requires Changes(s.config.admin, op, id, s.entries[id], e')
    ensures AllChange(s, op, s')
  {
    hide Changes, Around, About;
    QuietAround(s, op, s', id);
    forall x | x in s.entries
      ensures Changes(s.config.admin, op, x, s.entries[x], s'.entries[x])
    {
      if x != id {
        Unchanged(s.config.admin, op, x, s.entries[x]);
      }
    }
  }

  // ---- Entry points -------------------------------------------------------------------------

  /** Only what contributions write. */
  predicate Funds(admin: Address, e: Entry, e': Entry) {
    && e' == e.(campaign := e.campaign.(amountRaised := e'.campaign.amountRaised, effectiveRaised := e'.campaign.effectiveRaised),
                ledger := e'.ledger)
    && e'.ledger.personalCaps == e.ledger.personalCaps
    && (e'.ledger.feeRecipient == e.ledger.feeRecipient || e'.ledger.feeRecipient == Some(admin))
  }

  predicate Verifies(e: Entry, e': Entry) { e' == e.(campaign := e.campaign.(isVerified := true)) }

  lemma ItemFunds(s: State, who: Address, id: nat, amount: int)
    requires ContributeItem(s, who, id, amount).Ok?
    ensures id in s.entries
    ensures var s' := ContributeItem(s, who, id, amount).value;
            && s'.entries == s.entries[id := s'.entries[id]] && Quiet(s, s')
            && Funds(s.config.admin, s.entries[id], s'.entries[id])
  {
    hide ContributeItem, CheckCaps, CheckPersonalCap, BurstGuard;
    ContributionProofs.ItemShape(s, who, id, amount);
  }

  ghost predicate AllFund(s: State, s': State) {
    && s'.entries.Keys == s.entries.Keys && Quiet(s, s')
    && forall id | id in s.entries :: Funds(s.config.admin, s.entries[id], s'.entries[id])
  }

  lemma {:induction false} ItemsFund(s: State, who: Address, items: seq<Item>)
    requires ContributeItems(s, who, items).Ok?
    ensures AllFund(s, ContributeItems(s, who, items).value)
    decreases |items|
  {
    hide ContributeItem;
    if items != [] {
      var front, last := items[..|items| - 1], items[|items| - 1];
      ItemsFund(s, who, front);
      ItemFunds(ContributeItems(s, who, front).value, who, last.0, last.1);
    }
  }

  lemma ContributeFramed(s: State, id: nat, who: Address, amount: int)
    ensures Framed(s, DoContribute(id, who, amount), Contribute(s, id, who, amount))
  {
    hide ContributeItem, Transfer, AllChange;
    if Contribute(s, id, who, amount).Ok? {
      ItemFunds(s, who, id, amount);
      var s' := Contribute(s, id, who, amount).value;
      PutFramed(s, DoContribute(id, who, amount), s', id, s'.entries[id]);
    }
  }

  lemma BatchContributeFramed(s: State, who: Address, items: seq<Item>)
    ensures Framed(s, DoBatchContribute(who, items), BatchContribute(s, who, items))
  {
    hide ContributeItems, Affordable, Settle, Owed, AllChange, Funds;
    if BatchContribute(s, who, items).Ok? {
      ItemsFund(s, who, items);
      BatchFramed(s, who, items, ContributeItems(s, who, items).value, BatchContribute(s, who, items).value);
    }
  }

  lemma BatchFramed(s: State, who: Address, items: seq<Item>, s1: State, s': State)
    requires AllFund(s, s1) && s'.entries == s1.entries && Quiet(s1, s')
    ensures AllChange(s, DoBatchContribute(who, items), s')
  {
  }

  lemma RefundFramed(s: State, id: nat, who: Address)
    ensures Framed(s, DoClaimRefund(id, who), ClaimRefund(s, id, who))
  {
    hide Transfer, CheckRefund, AllChange;
    if ClaimRefund(s, id, who).Ok? {
      PutFramed(s, DoClaimRefund(id, who), ClaimRefund(s, id, who).value, id, Refunded(s.entries[id], who));
    }
  }

  lemma SetPersonalCapFramed(s: State, id: nat, who: Address, amount: int)
    ensures Framed(s, DoSetPersonalCap(id, who, amount), SetPersonalCap(s, id, who, amount))
  {
    hide AllChange;
    if SetPersonalCap(s, id, who, amount).Ok? {
      var s' := SetPersonalCap(s, id, who, amount).value;
      PutFramed(s, DoSetPersonalCap(id, who, amount), s', id, s'.entries[id]);
    }
  }

  lemma RemovePersonalCapFramed(s: State, id: nat, who: Address)
    ensures Framed(s, DoRemovePersonalCap(id, who), RemovePersonalCap(s, id, who))
  {
    hide AllChange;
    if RemovePersonalCap(s, id, who).Ok? {
      var s' := RemovePersonalCap(s, id, who).value;
      PutFramed(s, DoRemovePersonalCap(id, who), s', id, s'.entries[id]);
    }
  }

  lemma WithdrawFundsFramed(s: State, id: nat)
    ensures Framed(s, DoWithdrawFunds(id), WithdrawFunds(s, id))
  {
    hide SplitOf, CheckWithdraw, Transfer, AllChange;
    if WithdrawFunds(s, id).Ok? {
      var s' := WithdrawFunds(s, id).value;
      PutFramed(s, DoWithdrawFunds(id), s', id, s'.entries[id]);
    }
  }

  lemma WithdrawReserveFramed(s: State, id: nat)
    ensures Framed(s, DoWithdrawReserve(id), WithdrawReserve(s, id))
  {
    hide SplitOf, CheckWithdraw, Transfer, AllChange;
    if WithdrawReserve(s, id).Ok? {
      var s' := WithdrawReserve(s, id).value;
      PutFramed(s, DoWithdrawReserve(id), s', id, s'.entries[id]);
    }
  }

  lemma CancelCampaignFramed(s: State, id: nat)
    ensures Framed(s, DoCancel(id), CancelCampaign(s, id))
  {
    hide CheckCancel, CheckAdminCancel, Transfer, CancelCounters, AllChange;
    if CancelCampaign(s, id).Ok? {
      var s' := CancelCampaign(s, id).value;
      PutFramed(s, DoCancel(id), s', id, s'.entries[id]);
    }
  }

  lemma AdminCancelCampaignFramed(s: State, admin: Address, id: nat, reason: string)
    ensures Framed(s, DoAdminCancel(admin, id, reason), AdminCancelCampaign(s, admin, id, reason))
  {
    hide CheckCancel, CheckAdminCancel, Transfer, CancelCounters, AllChange;
    if AdminCancelCampaign(s, admin, id, reason).Ok? {
      var s' := AdminCancelCampaign(s, admin, id, reason).value;
      PutFramed(s, DoAdminCancel(admin, id, reason), s', id, s'.entries[id]);
    }
  }

  lemma SetMilestonesFramed(s: State, id: nat, list: seq<Milestone>)
    ensures Framed(s, DoSetMilestones(id, list), SetMilestones(s, id, list))
  {
    hide WellFormed, CheckClaim, PayClaim, AllOthersClaimed, ClaimAudit, AllChange;
    if SetMilestones(s, id, list).Ok? {
      var s' := SetMilestones(s, id, list).value;
      PutFramed(s, DoSetMilestones(id, list), s', id, s'.entries[id]);
    }
  }

  lemma VerifyMilestoneFramed(s: State, admin: Address, id: nat, mid: nat)
    ensures Framed(s, DoVerifyMilestone(admin, id, mid), VerifyMilestone(s, admin, id, mid))
  {
    hide WellFormed, CheckClaim, PayClaim, AllOthersClaimed, ClaimAudit, AllChange;
    if VerifyMilestone(s, admin, id, mid).Ok? {
      var s' := VerifyMilestone(s, admin, id, mid).value;
      PutFramed(s, DoVerifyMilestone(admin, id, mid), s', id, s'.entries[id]);
    }
  }

  lemma ClaimMilestoneFramed(s: State, id: nat, mid: nat)
    ensures Framed(s, DoClaimMilestone(id, mid), ClaimMilestone(s, id, mid))
  {
    hide CheckClaim, PayClaim, AllOthersClaimed, ClaimAudit, AllChange, HasVerified;
    if ClaimMilestone(s, id, mid).Ok? {
      ClaimFindsVerified(s, id, mid);
      PutFramed(s, DoClaimMilestone(id, mid), ClaimMilestone(s, id, mid).value, id, ClaimedEntry(s.entries[id], mid));
    }
  }

  lemma ClaimFindsVerified(s: State, id: nat, mid: nat)
    requires CheckClaim(s, id, mid).Ok?
    ensures mid !in s.entries[id].milestones.claimed && HasVerified(s.entries[id].milestones.list, mid)
  {
    hide PayoutOf, FeePayoutOf, MilestonePayouts.ClaimFits, SliceUp, Find;
    var k := Slices.FindFinds(s.entries[id].milestones.list, mid);
  }

  lemma DepositRevenueFramed(s: State, id: nat, amount: int)
    ensures Framed(s, DoDepositRevenue(id, amount), DepositRevenue(s, id, amount))
  {
    hide Transfer, DueFits, DueTo, RevenueSharing.ClaimFits, Claimable, CreatorShare, AuditClaim, AllChange;
    if DepositRevenue(s, id, amount).Ok? {
      var s' := DepositRevenue(s, id, amount).value;
      PutFramed(s, DoDepositRevenue(id, amount), s', id, s'.entries[id]);
    }
  }

  lemma ClaimRevenueFramed(s: State, id: nat, who: Address)
    ensures Framed(s, DoClaimRevenue(id, who), ClaimRevenue(s, id, who))
  {
    hide Transfer, DueFits, DueTo, RevenueSharing.ClaimFits, Claimable, CreatorShare, AuditClaim, AllChange;
    if ClaimRevenue(s, id, who).Ok? {
      var s' := ClaimRevenue(s, id, who).value;
      PutFramed(s, DoClaimRevenue(id, who), s', id, s'.entries[id]);
    }
  }

  lemma ClaimCreatorRevenueFramed(s: State, id: nat)
    ensures Framed(s, DoClaimCreatorRevenue(id), ClaimCreatorRevenue(s, id))
  {
    hide Transfer, DueFits, DueTo, RevenueSharing.ClaimFits, Claimable, CreatorShare, AuditClaim, AllChange;
    if ClaimCreatorRevenue(s, id).Ok? {
      var s' := ClaimCreatorRevenue(s, id).value;
      PutFramed(s, DoClaimCreatorRevenue(id), s', id, s'.entries[id]);
    }
  }

  lemma VoteWrites(s: State, id: nat, who: Address, approve: bool)
    requires CastVote(s, id, who, approve).Ok?
    ensures id in s.entries
    ensures var s' := CastVote(s, id, who, approve).value;
            && id in s'.entries && s'.entries == s.entries[id := s'.entries[id]] && Quiet(s, s')
            && Changes(s.config.admin, DoCastVote(id, who, approve), id, s.entries[id], s'.entries[id])
  {
    hide CountFits, Balance;
  }

  lemma CastVoteFramed(s: State, id: nat, who: Address, approve: bool)
    ensures Framed(s, DoCastVote(id, who, approve), CastVote(s, id, who, approve))
  {
    hide CastVote, AllChange, Changes;
    if CastVote(s, id, who, approve).Ok? {
      VoteWrites(s, id, who, approve);
      var s' := CastVote(s, id, who, approve).value;
      PutFramed(s, DoCastVote(id, who, approve), s', id, s'.entries[id]);
    }
  }

  lemma VerifyWithVotesFramed(s: State, id: nat)
    ensures Framed(s, DoVerifyWithVotes(id), VerifyWithVotes(s, id))
  {
    hide CountFits, ThresholdFor, ApprovalBps, Members, WithoutTally, AllChange;
    if VerifyWithVotes(s, id).Ok? {
      var s' := VerifyWithVotes(s, id).value;
      PutFramed(s, DoVerifyWithVotes(id), s', id, s'.entries[id]);
    }
  }

  lemma PurgeWrites(s: State, id: nat, voters: seq<Address>, finalize: bool)
    requires PurgeVotingState(s, id, voters, finalize).Ok?
    ensures id in s.entries
    ensures var s' := PurgeVotingState(s, id, voters, finalize).value;
            && id in s'.entries && s'.entries == s.entries[id := s'.entries[id]] && Quiet(s, s')
            && Changes(s.config.admin, DoPurge(id, voters, finalize), id, s.entries[id], s'.entries[id])
  {
  }

  lemma PurgeVotingStateFramed(s: State, id: nat, voters: seq<Address>, finalize: bool)
    ensures Framed(s, DoPurge(id, voters, finalize), PurgeVotingState(s, id, voters, finalize))
  {
    hide PurgeVotingState, AllChange, Changes;
    if PurgeVotingState(s, id, voters, finalize).Ok? {
      PurgeWrites(s, id, voters, finalize);
      var s' := PurgeVotingState(s, id, voters, finalize).value;
      PutFramed(s, DoPurge(id, voters, finalize), s', id, s'.entries[id]);
    }
  }

  lemma AdminVerifies(s: State, id: nat)
    requires AdminVerify(s, id).Ok?
    ensures id in s.entries
    ensures var s' := AdminVerify(s, id).value;
            s'.entries == s.entries[id := s'.entries[id]] && Verifies(s.entries[id], s'.entries[id]) && Quiet(s, s')
  {
  }

  ghost predicate SomeVerified(s: State, s': State) {
    && Quiet(s, s')
    && s'.entries.Keys == s.entries.Keys
    && forall id | id in s.entries :: s'.entries[id] == s.entries[id] || Verifies(s.entries[id], s'.entries[id])
  }

  lemma {:induction false} VerifyAllVerifies(s: State, ids: seq<nat>)
    ensures SomeVerified(s, VerifyAll(s, ids).0)
    decreases |ids|
  {
    hide AdminVerify;
    if ids != [] {
      VerifyAllVerifies(s, ids[..|ids| - 1]);
      var s1 := VerifyAll(s, ids[..|ids| - 1]).0;
      if AdminVerify(s1, ids[|ids| - 1]).Ok? {
        AdminVerifies(s1, ids[|ids| - 1]);
      }
    }
  }

  lemma VerifyCampaignFramed(s: State, id: nat)
    ensures Framed(s, DoVerify(id), VerifyCampaign(s, id))
  {
    hide AdminVerify, AllChange;
    if VerifyCampaign(s, id).Ok? {
      AdminVerifies(s, id);
      var s' := VerifyCampaign(s, id).value;
      PutFramed(s, DoVerify(id), s', id, s'.entries[id]);
    }
  }

  lemma VerifyCampaignsFramed(s: State, ids: seq<nat>)
    ensures Framed(s, DoVerifyMany(ids), VerifyCampaigns(s, ids))
  {
    hide AdminVerify, VerifyAll, AllChange, Verifies;
    VerifyAllVerifies(s, Batch(ids));
    if VerifyCampaigns(s, ids).Ok? {
      SomeVerifiedFramed(s, ids, VerifyCampaigns(s, ids).value);
    }
  }

  lemma SomeVerifiedFramed(s: State, ids: seq<nat>, s': State)
    requires SomeVerified(s, s')
    ensures AllChange(s, DoVerifyMany(ids), s')
  {
  }

  lemma ExtendDeadlineFramed(s: State, id: nat, days: nat)
    ensures Framed(s, DoExtendDeadline(id, days), ExtendDeadline(s, id, days))
  {
    hide AllChange, DurationCap, WithoutTally;
    if ExtendDeadline(s, id, days).Ok? {
      var s' := ExtendDeadline(s, id, days).value;
      PutFramed(s, DoExtendDeadline(id, days), s', id, s'.entries[id]);
    }
  }

  lemma SetFeeOverrideFramed(s: State, id: nat, admin: Address, fee: nat)
    ensures Framed(s, DoSetFeeOverride(id, admin, fee), SetFeeOverride(s, id, admin, fee))
  {
    hide AllChange, DurationCap, WithoutTally;
    if SetFeeOverride(s, id, admin, fee).Ok? {
      var s' := SetFeeOverride(s, id, admin, fee).value;
      PutFramed(s, DoSetFeeOverride(id, admin, fee), s', id, s'.entries[id]);
    }
  }

  lemma EditWrites(s: State, id: nat, text: string)
    requires UpdateDescription(s, id, text).Ok?
    ensures id in s.entries
    ensures var s' := UpdateDescription(s, id, text).value;
            && id in s'.entries && s'.entries == s.entries[id := s'.entries[id]] && Quiet(s, s')
            && Changes(s.config.admin, DoUpdateDescription(id, text), id, s.entries[id], s'.entries[id])
  {
  }

  lemma UpdateDescriptionFramed(s: State, id: nat, text: string)
    ensures Framed(s, DoUpdateDescription(id, text), UpdateDescription(s, id, text))
  {
    hide UpdateDescription, AllChange, Changes;
    if UpdateDescription(s, id, text).Ok? {
      EditWrites(s, id, text);
      var s' := UpdateDescription(s, id, text).value;
      PutFramed(s, DoUpdateDescription(id, text), s', id, s'.entries[id]);
    }
  }

  lemma InitiateTransferFramed(s: State, id: nat, newCreator: Address)
    ensures Framed(s, DoInitiateTransfer(id, newCreator), InitiateTransfer(s, id, newCreator))
  {
    hide AllChange;
    if InitiateTransfer(s, id, newCreator).Ok? {
      var s' := InitiateTransfer(s, id, newCreator).value;
      PutFramed(s, DoInitiateTransfer(id, newCreator), s', id, s'.entries[id]);
    }
  }

  lemma CancelTransferFramed(s: State, id: nat)
    ensures Framed(s, DoCancelTransfer(id), CancelTransfer(s, id))
  {
    hide AllChange;
    if CancelTransfer(s, id).Ok? {
      var s' := CancelTransfer(s, id).value;
      PutFramed(s, DoCancelTransfer(id), s', id, s'.entries[id]);
    }
  }

  lemma AcceptTransferFramed(s: State, id: nat)
    ensures Framed(s, DoAcceptTransfer(id), AcceptTransfer(s, id))
  {
    hide AllChange, Filed, Unfiled, Locatable, Buckets.Append;
    if AcceptTransfer(s, id).Ok? {
      var s' := AcceptTransfer(s, id).value;
      PutFramed(s, DoAcceptTransfer(id), s', id, s'.entries[id]);
    }
  }

  lemma AddTagFramed(s: State, id: nat, tag: string)
    ensures Framed(s, DoAddTag(id, tag), AddTag(s, id, tag))
  {
    hide AllChange, Filed, Unfiled, Locatable, Buckets.Append;
    if AddTag(s, id, tag).Ok? {
      var s' := AddTag(s, id, tag).value;
      PutFramed(s, DoAddTag(id, tag), s', id, s'.entries[id]);
    }
  }

  // ---- Any call -----------------------------------------------------------------------------

  lemma EscrowFramed(s: State, op: Op)
    requires EscrowCall(op)
    ensures Framed(s, op, CallEscrow(s, op))
  {
    hide Framed, Contribute, BatchContribute, ClaimRefund, SetPersonalCap, RemovePersonalCap, WithdrawFunds, WithdrawReserve,
         CancelCampaign, AdminCancelCampaign;
    match op
    case DoContribute(x, who, amount) => ContributeFramed(s, x, who, amount);
    case DoBatchContribute(who, items) => BatchContributeFramed(s, who, items);
    case DoClaimRefund(x, who) => RefundFramed(s, x, who);
    case DoSetPersonalCap(x, who, amount) => SetPersonalCapFramed(s, x, who, amount);
    case DoRemovePersonalCap(x, who) => RemovePersonalCapFramed(s, x, who);
    case DoWithdrawFunds(x) => WithdrawFundsFramed(s, x);
    case DoWithdrawReserve(x) => WithdrawReserveFramed(s, x);
    case DoCancel(x) => CancelCampaignFramed(s, x);
    case DoAdminCancel(admin, x, reason) => AdminCancelCampaignFramed(s, admin, x, reason);
  }

  lemma PayoutFramed(s: State, op: Op)
    requires PayoutCall(op)
    ensures Framed(s, op, CallPayout(s, op))
  {
    hide Framed, SetMilestones, VerifyMilestone, ClaimMilestone, DepositRevenue, ClaimRevenue, ClaimCreatorRevenue;
    match op
    case DoSetMilestones(x, list) => SetMilestonesFramed(s, x, list);
    case DoVerifyMilestone(admin, x, mid) => VerifyMilestoneFramed(s, admin, x, mid);
    case DoClaimMilestone(x, mid) => ClaimMilestoneFramed(s, x, mid);
    case DoDepositRevenue(x, amount) => DepositRevenueFramed(s, x, amount);
    case DoClaimRevenue(x, who) => ClaimRevenueFramed(s, x, who);
    case DoClaimCreatorRevenue(x) => ClaimCreatorRevenueFramed(s, x);
  }

  lemma VoteFramed(s: State, op: Op)
    requires VoteCall(op)
    ensures Framed(s, op, CallVote(s, op))
  {
    hide Framed, CastVote, VerifyCampaign, VerifyCampaigns, VerifyWithVotes, PurgeVotingState, ExtendDeadline, UpdateDescription;
    match op
    case DoCastVote(x, who, approve) => CastVoteFramed(s, x, who, approve);
    case DoVerify(x) => VerifyCampaignFramed(s, x);
    case DoVerifyMany(ids) => VerifyCampaignsFramed(s, ids);
    case DoVerifyWithVotes(x) => VerifyWithVotesFramed(s, x);
    case DoPurge(x, voters, finalize) => PurgeVotingStateFramed(s, x, voters, finalize);
    case DoUpdateDescription(x, text) => UpdateDescriptionFramed(s, x, text);
    case DoExtendDeadline(x, days) => ExtendDeadlineFramed(s, x, days);
  }

  lemma RegistryFramed(s: State, op: Op)
    requires RegistryCall(op) && !op.DoCreate?
    ensures Framed(s, op, CallRegistry(s, op))
  {
    hide Framed, InitiateTransfer, AcceptTransfer, CancelTransfer, AddTag;
    match op
    case DoInitiateTransfer(x, newCreator) => InitiateTransferFramed(s, x, newCreator);
    case DoAcceptTransfer(x) => AcceptTransferFramed(s, x);
    case DoCancelTransfer(x) => CancelTransferFramed(s, x);
    case DoAddTag(x, tag) => AddTagFramed(s, x, tag);
  }

  lemma RecordsKept(s: State, op: Op, s': State)
    requires SettingCall(op) && !op.DoSetFeeOverride? && s'.entries == s.entries && Around(op, s, s')
    ensures AllChange(s, op, s')
  {
    hide Changes;
    forall x | x in s.entries
      ensures Changes(s.config.admin, op, x, s.entries[x], s'.entries[x])
    {
      Unchanged(s.config.admin, op, x, s.entries[x]);
    }
  }

  lemma SettingWrites(s: State, op: Op)
    requires SettingCall(op) && !op.DoSetFeeOverride? && CallSetting(s, op).Ok?
    ensures CallSetting(s, op).value.entries == s.entries && Around(op, s, CallSetting(s, op).value)
  {
    hide ValidConfig, Balance, Credit, SetFeeOverride;
  }

  lemma SettingFramed(s: State, op: Op)
    requires SettingCall(op)
    ensures Framed(s, op, CallSetting(s, op))
  {
    hide AllChange, Around;
    if op.DoSetFeeOverride? {
      SetFeeOverrideFramed(s, op.id, op.admin, op.fee);
    } else if CallSetting(s, op).Ok? {
      hide CallSetting;
      SettingWrites(s, op);
      RecordsKept(s, op, CallSetting(s, op).value);
    }
  }

  /** Every call but a creation leaves the set of campaigns as it is and changes each record only as it may. */
  lemma CallFramed(s: State, op: Op)
    requires !op.DoCreate?
    ensures Framed(s, op, Call(s, op))
  {
    hide Framed, CallEscrow, CallPayout, CallVote, CallRegistry, CallSetting;
    if EscrowCall(op) {
      EscrowFramed(s, op);
    } else if PayoutCall(op) {
      PayoutFramed(s, op);
    } else if VoteCall(op) {
      VoteFramed(s, op);
    } else if RegistryCall(op) {
      RegistryFramed(s, op);
    } else {
      SettingFramed(s, op);
    }
  }

  // ---- Creation -----------------------------------------------------------------------------

  /** The record of a campaign just created from `p` at time `now`. */
  predicate Fresh(now: nat, config: Config, p: CreateParams, token: Option<Address>, id: nat, e: Entry) {
    && e.campaign == Campaign(id, p.creator, p.creator, None, p.description, p.fundingGoal, now + p.durationDays * SECONDS_PER_DAY, 0,
                              true, false, false, false, p.category, p.hasRevenueSharing, e.campaign.revenueShare, p.maxPerUser,
                              None, false, 0)
    && e.campaign.revenueShare == (if p.hasRevenueSharing then p.revenueShare else 0)
    && e.terms.token == (if token.Some? then token.value else config.platformToken)
    && e.terms.startTime == now && e.terms.vestingDelayDays == config.vestingDelayDays && e.terms.vestingBps == config.vestingBps
    && e.ledger == Ledger(map[], map[], 0, map[], None, 0, 0)
    && e.milestones == Milestones([], {}) && e.reserve == None && e.revenue == Revenue(0, map[], 0, 0, 0)
    && e.votes == NO_VOTES && e.tags == []
  }

  /** A creation adds the next id, with a record read off the call and the settings of the moment, and nothing else. */
  lemma CreateFresh(s: State, p: CreateParams, token: Option<Address>)
    requires CreateCampaign(s, p, token).Ok?
    ensures var s', id := CreateCampaign(s, p, token).value, s.counters.campaigns + 1;
            && id in s'.entries && s'.entries == s.entries[id := s'.entries[id]] && Quiet(s, s')
            && Fresh(s.now, s.config, p, token, id, s'.entries[id])
  {
    hide Filed, Categorized, CheckParams, CheckToken;
  }

  lemma CallIsCreate(s: State, p: CreateParams, token: Option<Address>)
    ensures Call(s, DoCreate(p, token)) == CreateCampaign(s, p, token)
  {
    hide CallEscrow, CallPayout, CallVote, CallSetting, CreateCampaign;
  }

  // ---- Steps of a run -----------------------------------------------------------------------

  /** One step seen from a campaign that exists: nothing, or a successful call's change. */
  lemma StepChanges(s: State, op: Op, id: nat)
    requires IdsInv(s) && id in s.entries
    ensures id in Next(s, op).entries
    ensures if Call(s, op).Ok? then Changes(s.config.admin, op, id, s.entries[id], Next(s, op).entries[id])
            else Next(s, op).entries[id] == s.entries[id]
  {
    hide Call, CreateCampaign, Changes, Fresh;
    if op.DoCreate? {
      CallIsCreate(s, op.params, op.token);
      if Call(s, op).Ok? {
        CreateFresh(s, op.params, op.token);
        Unchanged(s.config.admin, op, id, s.entries[id]);
      }
    } else {
      CallFramed(s, op);
    }
  }

  /** A successful call about a campaign finds it stored. */
  lemma StepFinds(s: State, op: Op, id: nat)
    requires Call(s, op).Ok? && About(op, id)
    ensures id in s.entries
  {
    hide Call, Changes;
    CallFramed(s, op);
  }

  /** One step seen from an id that is not taken: nothing, or its creation. */
  lemma StepCreates(s: State, op: Op, id: nat)
    requires id !in s.entries && id in Next(s, op).entries
    ensures Call(s, op).Ok? && op.DoCreate? && id == s.counters.campaigns + 1
    ensures Fresh(s.now, s.config, op.params, op.token, id, Next(s, op).entries[id])
  {
    hide Call, CreateCampaign, Changes, Fresh;
    if op.DoCreate? {
      CallIsCreate(s, op.params, op.token);
      if Call(s, op).Ok? {
        CreateFresh(s, op.params, op.token);
      }
    } else {
      CallFramed(s, op);
    }
  }

  lemma Reached(s: State, ops: seq<Op>)
    requires Init(s) && ops != []
    ensures IdsInv(Run(s, ops[..|ops| - 1])) && Inv(Run(s, ops[..|ops| - 1]))
    ensures Run(s, ops) == Next(Run(s, ops[..|ops| - 1]), ops[|ops| - 1])
  {
    hide Next, Init, EntriesInv, IdsInv, CountersInv, BankInv, IndexInv, ValidConfig, GlobalShares;
    ReachableInv(s, ops[..|ops| - 1]);
  }

  /** What a successful call does around the campaigns. */
  lemma StepAround(s: State, op: Op)
    ensures if Call(s, op).Ok? then Around(op, s, Next(s, op)) else Next(s, op) == s
  {
    hide Call, CreateCampaign, Changes, Fresh;
    if op.DoCreate? {
      CallIsCreate(s, op.params, op.token);
      if Call(s, op).Ok? {
        CreateFresh(s, op.params, op.token);
      }
    } else {
      CallFramed(s, op);
    }
  }

  // The same part by part.

  lemma StepTerms(s: State, op: Op, id: nat)
    requires IdsInv(s) && id in s.entries
    ensures id in Next(s, op).entries
    ensures var e, e' := s.entries[id], Next(s, op).entries[id];
            if Call(s, op).Ok? then TermsPart(op, About(op, id), e, e') else e' == e
  {
    hide IdsInv, Call, About, TermsPart, OwnerPart, PhasePart, LedgerPart, MilestonePart, ReservePart, RevenuePart, VotersPart;
    StepChanges(s, op, id);
  }

  lemma StepOwner(s: State, op: Op, id: nat)
    requires IdsInv(s) && id in s.entries
    ensures id in Next(s, op).entries
    ensures var e, e' := s.entries[id], Next(s, op).entries[id];
            if Call(s, op).Ok? then OwnerPart(op, About(op, id), e.campaign, e'.campaign) else e' == e
  {
    hide IdsInv, Call, About, TermsPart, OwnerPart, PhasePart, LedgerPart, MilestonePart, ReservePart, RevenuePart, VotersPart;
    StepChanges(s, op, id);
  }

  lemma StepPhase(s: State, op: Op, id: nat)
    requires IdsInv(s) && id in s.entries
    ensures id in Next(s, op).entries
    ensures var e, e' := s.entries[id], Next(s, op).entries[id];
            if Call(s, op).Ok? then PhasePart(op, About(op, id), e.campaign, e'.campaign) else e' == e
  {
    hide IdsInv, Call, About, TermsPart, OwnerPart, PhasePart, LedgerPart, MilestonePart, ReservePart, RevenuePart, VotersPart;
    StepChanges(s, op, id);
  }

  lemma StepLedger(s: State, op: Op, id: nat)
    requires IdsInv(s) && id in s.entries
    ensures id in Next(s, op).entries
    ensures var e, e' := s.entries[id], Next(s, op).entries[id];
            if Call(s, op).Ok? then LedgerPart(s.config.admin, op, About(op, id), e, e') else e' == e
  {
    hide IdsInv, Call, About, TermsPart, OwnerPart, PhasePart, LedgerPart, MilestonePart, ReservePart, RevenuePart, VotersPart;
    StepChanges(s, op, id);
  }

  lemma StepMilestone(s: State, op: Op, id: nat)
    requires IdsInv(s) && id in s.entries
    ensures id in Next(s, op).entries
    ensures var e, e' := s.entries[id], Next(s, op).entries[id];
            if Call(s, op).Ok? then MilestonePart(op, About(op, id), e.milestones, e'.milestones) else e' == e
  {
    hide IdsInv, Call, About, TermsPart, OwnerPart, PhasePart, LedgerPart, MilestonePart, ReservePart, RevenuePart, VotersPart;
    StepChanges(s, op, id);
  }

  lemma StepReserve(s: State, op: Op, id: nat)
    requires IdsInv(s) && id in s.entries
    ensures id in Next(s, op).entries
    ensures var e, e' := s.entries[id], Next(s, op).entries[id];
            if Call(s, op).Ok? then ReservePart(op, About(op, id), e, e') else e' == e
  {
    hide IdsInv, Call, About, TermsPart, OwnerPart, PhasePart, LedgerPart, MilestonePart, ReservePart, RevenuePart, VotersPart;
    StepChanges(s, op, id);
  }

  lemma StepRevenue(s: State, op: Op, id: nat)
    requires IdsInv(s) && id in s.entries
    ensures id in Next(s, op).entries
    ensures var e, e' := s.entries[id], Next(s, op).entries[id];
            if Call(s, op).Ok? then RevenuePart(op, About(op, id), e.revenue, e'.revenue) else e' == e
  {
    hide IdsInv, Call, About, TermsPart, OwnerPart, PhasePart, LedgerPart, MilestonePart, ReservePart, RevenuePart, VotersPart;
    StepChanges(s, op, id);
  }

  lemma StepVoters(s: State, op: Op, id: nat)
    requires IdsInv(s) && id in s.entries
    ensures id in Next(s, op).entries
    ensures var e, e' := s.entries[id], Next(s, op).entries[id];
            if Call(s, op).Ok? then VotersPart(op, About(op, id), e.votes, e'.votes) else e' == e
  {
    hide IdsInv, Call, About, TermsPart, OwnerPart, PhasePart, LedgerPart, MilestonePart, ReservePart, RevenuePart, VotersPart;
    StepChanges(s, op, id);
  }
}
