/** Which tokens each call moves, from whom to whom: these payments and no others. */
module Payments {
  import opened Types
  import opened State
  import opened Contributions
  import opened Payouts
  import opened MilestonePayouts
  import opened RevenueSharing
  import opened Governance
  import opened Registry
  import opened Invariants
  import opened Runs
  import Buckets
  import BatchProofs
  import ContributionProofs
  import PayoutProofs
  import EscrowTheorems
  import Solvency

  datatype Payment = Payment(token: Address, from: Address, to: Address, amount: int)

  /** What one payment adds to `who`'s balance of `token`. */
  function Effect(p: Payment, token: Address, who: Address): int {
    if p.token != token then 0
    else (if who == p.to then p.amount else 0) - (if who == p.from then p.amount else 0)
  }

  function Net(ps: seq<Payment>, token: Address, who: Address): int {
    if ps == [] then 0 else Net(ps[..|ps| - 1], token, who) + Effect(ps[|ps| - 1], token, who)
  }

  // ---- What each entry point pays -----------------------------------------------------------

  function ItemPayments(s: State, who: Address, items: seq<Item>): seq<Payment> {
    if items == [] then []
    else
      var (id, amount) := items[|items| - 1];
      ItemPayments(s, who, items[..|items| - 1]) + [Payment(TokenOf(s, id), who, SELF, amount)]
  }

  /** A claimed milestone pays the admin the fee and the creator the rest of its share. */
  function MilestonePaymentsOf(s: State, id: nat, mid: nat): seq<Payment>
    requires id in s.entries
  {
    var e := s.entries[id];
    match CheckClaim(s, id, mid)
    case Ok(p) =>
      [Payment(e.terms.token, SELF, s.config.admin, p.feePay)] + [Payment(e.terms.token, SELF, e.campaign.creator, p.pay)]
    case Err(_) => []
  }

  /** What a call on campaign `id` pays. */
  function CampaignPayments(s: State, id: nat, op: Op): seq<Payment>
    requires id in s.entries
  {
    var e := s.entries[id];
    var token, creator := e.terms.token, e.campaign.creator;
    match op
    case DoContribute(_, who, amount) => [Payment(token, who, SELF, amount)]
    case DoClaimRefund(_, who) => [Payment(token, SELF, who, Get(e.ledger.contributions, who))]
    case DoWithdrawFunds(_) =>
      var p := SplitOf(s.config, e);
      [Payment(token, SELF, e.ledger.feeRecipient.GetOr(s.config.admin), p.fee)] + [Payment(token, SELF, creator, p.creator)]
    case DoWithdrawReserve(_) =>
      if e.reserve.Some? then [Payment(token, SELF, creator, e.reserve.value.amount)] else []
    case DoClaimMilestone(_, mid) => MilestonePaymentsOf(s, id, mid)
    case DoDepositRevenue(_, amount) => [Payment(token, creator, SELF, amount)]
    case DoClaimRevenue(_, who) => [Payment(token, SELF, who, Claimable(e, who))]
    case DoClaimCreatorRevenue(_) =>
      [Payment(token, SELF, creator, CreatorShare(e.revenue.pool, e.campaign.revenueShare) - e.revenue.creatorClaimed)]
    case _ => []
  }

  function PaymentsOf(s: State, op: Op): seq<Payment> {
    match op
    case DoBatchContribute(who, items) => ItemPayments(s, who, items)
    case DoContribute(id, _, _) => if id in s.entries then CampaignPayments(s, id, op) else []
    case DoClaimRefund(id, _) => if id in s.entries then CampaignPayments(s, id, op) else []
    case DoWithdrawFunds(id) => if id in s.entries then CampaignPayments(s, id, op) else []
    case DoWithdrawReserve(id) => if id in s.entries then CampaignPayments(s, id, op) else []
    case DoClaimMilestone(id, _) => if id in s.entries then CampaignPayments(s, id, op) else []
    case DoDepositRevenue(id, _) => if id in s.entries then CampaignPayments(s, id, op) else []
    case DoClaimRevenue(id, _) => if id in s.entries then CampaignPayments(s, id, op) else []
    case DoClaimCreatorRevenue(id) => if id in s.entries then CampaignPayments(s, id, op) else []
    case _ => []
  }

  /** The balances after are those before plus what the payments add, for every token and holder. */
  ghost predicate Pays(b: Bank, b': Bank, ps: seq<Payment>) {
    forall token: Address, who: Address :: Balance(b', token, who) == Balance(b, token, who) + Net(ps, token, who)
  }

  /** A call `op` that results in `r` has moved exactly its payments. */
  ghost predicate PaysFor(s: State, op: Op, r: Result<State>) {
    r.Ok? ==> Pays(s.bank, r.value.bank, PaymentsOf(s, op))
  }

  lemma PayNone(b: Bank)
    ensures Pays(b, b, [])
  {
  }

  lemma PayOne(b: Bank, p: Payment, b': Bank)
    requires Transfer(b, p.token, p.from, p.to, p.amount) == Ok(b')
    ensures Pays(b, b', [p])
  {
    forall token: Address, who: Address
      ensures Balance(b', token, who) == Balance(b, token, who) + Net([p], token, who)
    {
      assert [p][..0] == [];
    }
  }

  lemma NetAppend(ps: seq<Payment>, p: Payment, token: Address, who: Address)
    ensures Net(ps + [p], token, who) == Net(ps, token, who) + Effect(p, token, who)
    ensures Net([p], token, who) == Effect(p, token, who)
  {
    assert (ps + [p])[..|ps|] == ps && [p][..0] == [];
  }

  lemma PayMore(b: Bank, b1: Bank, b2: Bank, ps: seq<Payment>, p: Payment)
    requires Pays(b, b1, ps) && Pays(b1, b2, [p])
    ensures Pays(b, b2, ps + [p])
  {
    hide Net, Balance, Effect;
    forall token: Address, who: Address
      ensures Balance(b2, token, who) == Balance(b, token, who) + Net(ps + [p], token, who)
    {
      NetAppend(ps, p, token, who);
      assert Balance(b1, token, who) == Balance(b, token, who) + Net(ps, token, who);
      assert Balance(b2, token, who) == Balance(b1, token, who) + Net([p], token, who);
    }
  }

  // ---- Escrow -------------------------------------------------------------------------------

  lemma ContributePays(s: State, id: nat, who: Address, amount: int)
    ensures PaysFor(s, DoContribute(id, who, amount), Contribute(s, id, who, amount))
  {
    hide Contribute, ContributeItem, Transfer, Pays;
    if Contribute(s, id, who, amount).Ok? {
      ContributionProofs.ContributeShape(s, id, who, amount);
      var token := s.entries[id].terms.token;
      PayOne(s.bank, Payment(token, who, SELF, amount), Transfer(s.bank, token, who, SELF, amount).value);
    }
  }

  lemma SettledMore(who: Address, owed: map<Address, int>, p: Payment, token: Address, a: Address)
    requires p.from == who && p.to == SELF && who != SELF
    ensures Settled(who, BatchProofs.Owing(owed, p.token, p.amount), (token, a)) == Settled(who, owed, (token, a)) + Effect(p, token, a)
  {
  }

  /** The items' payments come to what the owed map settles. */
  lemma {:induction false} ItemsNet(s: State, who: Address, items: seq<Item>, token: Address, a: Address)
    requires who != SELF
    ensures Net(ItemPayments(s, who, items), token, a) == Settled(who, Owed(s, items), (token, a))
    decreases |items|
  {
    if items != [] {
      hide Net, Settled, Effect;
      var front := items[..|items| - 1];
      var (id, amount) := items[|items| - 1];
      var p := Payment(TokenOf(s, id), who, SELF, amount);
      ItemsNet(s, who, front, token, a);
      NetAppend(ItemPayments(s, who, front), p, token, a);
      SettledMore(who, Owed(s, front), p, token, a);
    }
  }

  lemma BatchPays(s: State, who: Address, items: seq<Item>)
    ensures PaysFor(s, DoBatchContribute(who, items), BatchContribute(s, who, items))
  {
    hide ContributeItems, Affordable, Settle, Owed, ItemPayments;
    var r := BatchContribute(s, who, items);
    if r.Ok? {
      forall token: Address, a: Address
        ensures Balance(r.value.bank, token, a) == Balance(s.bank, token, a) + Net(ItemPayments(s, who, items), token, a)
      {
        BatchProofs.SettleBalance(s.bank, who, Owed(s, items), (token, a));
        ItemsNet(s, who, items, token, a);
      }
    }
  }

  lemma RefundPays(s: State, id: nat, who: Address)
    ensures PaysFor(s, DoClaimRefund(id, who), ClaimRefund(s, id, who))
  {
    hide ClaimRefund, Transfer, Pays, Refunded, RefundAudit;
    if ClaimRefund(s, id, who).Ok? {
      ContributionProofs.RefundShape(s, id, who);
      var e := s.entries[id];
      PayOne(s.bank, Payment(e.terms.token, SELF, who, Get(e.ledger.contributions, who)), ClaimRefund(s, id, who).value.bank);
    }
  }

  lemma WithdrawPays(s: State, id: nat)
    ensures PaysFor(s, DoWithdrawFunds(id), WithdrawFunds(s, id))
  {
    hide WithdrawFunds, SplitOf, Transfer, Pays, WithdrawnEntry;
    if WithdrawFunds(s, id).Ok? {
      PayoutProofs.WithdrawShape(s, id);
      var e, p := s.entries[id], SplitOf(s.config, s.entries[id]);
      var to := e.ledger.feeRecipient.GetOr(s.config.admin);
      var b1 := Transfer(s.bank, e.terms.token, SELF, to, p.fee).value;
      var fee, rest := Payment(e.terms.token, SELF, to, p.fee), Payment(e.terms.token, SELF, e.campaign.creator, p.creator);
      PayOne(s.bank, fee, b1);
      PayOne(b1, rest, WithdrawFunds(s, id).value.bank);
      PayMore(s.bank, b1, WithdrawFunds(s, id).value.bank, [fee], rest);
    }
  }

  lemma ReservePays(s: State, id: nat)
    ensures PaysFor(s, DoWithdrawReserve(id), WithdrawReserve(s, id))
  {
    hide Transfer, Pays;
    if WithdrawReserve(s, id).Ok? {
      var e := s.entries[id];
      PayOne(s.bank, Payment(e.terms.token, SELF, e.campaign.creator, e.reserve.value.amount), WithdrawReserve(s, id).value.bank);
    }
  }

  // ---- Milestones and revenue ---------------------------------------------------------------

  lemma ClaimPays(s: State, id: nat, mid: nat)
    requires Inv(s)
    ensures PaysFor(s, DoClaimMilestone(id, mid), ClaimMilestone(s, id, mid))
  {
    hide Inv, CheckClaim, Transfer, Pays, ClaimedEntry, ClaimAudit, AllOthersClaimed;
    if ClaimMilestone(s, id, mid).Ok? {
      Solvency.FeeSigned(s, id, mid);
      var e, p := s.entries[id], CheckClaim(s, id, mid).value;
      var fee := Payment(e.terms.token, SELF, s.config.admin, p.feePay);
      var rest := Payment(e.terms.token, SELF, e.campaign.creator, p.pay);
      var b1, b2 := PayFee(s.bank, e.terms.token, s.config.admin, p.feePay).value, ClaimMilestone(s, id, mid).value.bank;
      if p.feePay == 0 {
        PayNothing(s.bank, fee);
      } else {
        PayOne(s.bank, fee, b1);
      }
      PayOne(b1, rest, b2);
      PayMore(s.bank, b1, b2, [fee], rest);
    }
  }

  lemma PayNothing(b: Bank, p: Payment)
    requires p.amount == 0
    ensures Pays(b, b, [p])
  {
    assert [p][..0] == [];
  }

  lemma DepositPays(s: State, id: nat, amount: int)
    ensures PaysFor(s, DoDepositRevenue(id, amount), DepositRevenue(s, id, amount))
  {
    hide Transfer, Pays;
    if DepositRevenue(s, id, amount).Ok? {
      var e := s.entries[id];
      PayOne(s.bank, Payment(e.terms.token, e.campaign.creator, SELF, amount), DepositRevenue(s, id, amount).value.bank);
    }
  }

  lemma RevenueClaimPays(s: State, id: nat, who: Address)
    ensures PaysFor(s, DoClaimRevenue(id, who), ClaimRevenue(s, id, who))
  {
    hide Transfer, Pays, Claim, Claimable, LastClaimant;
    if ClaimRevenue(s, id, who).Ok? {
      var e := s.entries[id];
      PayOne(s.bank, Payment(e.terms.token, SELF, who, Claimable(e, who)), ClaimRevenue(s, id, who).value.bank);
    }
  }

  lemma CreatorClaimPays(s: State, id: nat)
    ensures PaysFor(s, DoClaimCreatorRevenue(id), ClaimCreatorRevenue(s, id))
  {
    hide Transfer, Pays, CreatorShare;
    if ClaimCreatorRevenue(s, id).Ok? {
      var e := s.entries[id];
      PayOne(s.bank, Payment(e.terms.token, SELF, e.campaign.creator,
                             CreatorShare(e.revenue.pool, e.campaign.revenueShare) - e.revenue.creatorClaimed),
             ClaimCreatorRevenue(s, id).value.bank);
    }
  }

  // ---- Calls that move no tokens ------------------------------------------------------------

  predicate SameBank(s: State, r: Result<State>) { r.Ok? ==> r.value.bank == s.bank }

  lemma CapBank(s: State, id: nat, who: Address, amount: int)
    ensures SameBank(s, SetPersonalCap(s, id, who, amount)) && SameBank(s, RemovePersonalCap(s, id, who))
  {
  }

  /** In a reachable state a cancellation meets no revenue pool, so it pays nobody. */
  lemma CancelBank(s: State, id: nat)
    requires Inv(s)
    ensures SameBank(s, CancelCampaign(s, id))
  {
    hide Inv, CancelledEntry, CancelTotal, CancelCounters;
    if CancelCampaign(s, id).Ok? {
      EscrowTheorems.CancelMeetsNoPool(s, id);
    }
  }

  lemma AdminCancelBank(s: State, admin: Address, id: nat, reason: string)
    ensures SameBank(s, AdminCancelCampaign(s, admin, id, reason))
  {
    hide CheckAdminCancel, CancelledEntry, CancelCounters;
  }

  lemma MilestoneBank(s: State, id: nat, list: seq<Milestone>, admin: Address, mid: nat)
    ensures SameBank(s, SetMilestones(s, id, list)) && SameBank(s, VerifyMilestone(s, admin, id, mid))
  {
    hide WellFormed, Normalized, MarkVerified;
  }

  lemma VoteBank(s: State, id: nat, voter: Address, approve: bool)
    ensures SameBank(s, CastVote(s, id, voter, approve))
  {
    hide CountFits, Counted;
  }

  lemma {:induction false} VerifyAllBank(s: State, ids: seq<nat>)
    ensures VerifyAll(s, ids).0.bank == s.bank
    decreases |ids|
  {
    if ids != [] {
      VerifyAllBank(s, ids[..|ids| - 1]);
    }
  }

  lemma VerifyBank(s: State, id: nat, ids: seq<nat>)
    ensures SameBank(s, VerifyCampaign(s, id)) && SameBank(s, VerifyCampaigns(s, ids)) && SameBank(s, VerifyWithVotes(s, id))
  {
    hide VerifyAll, ApprovalBps, ThresholdFor;
    VerifyAllBank(s, Batch(ids));
  }

  lemma EditBank(s: State, id: nat, voters: seq<Address>, finalize: bool, description: string, days: nat)
    ensures SameBank(s, PurgeVotingState(s, id, voters, finalize))
    ensures SameBank(s, UpdateDescription(s, id, description))
    ensures SameBank(s, ExtendDeadline(s, id, days))
  {
    hide Members, WithoutTally, DurationCap;
  }

  lemma RegistryBank(s: State, id: nat, p: CreateParams, token: Option<Address>, to: Address, tag: string)
    ensures SameBank(s, CreateCampaign(s, p, token)) && SameBank(s, InitiateTransfer(s, id, to))
    ensures SameBank(s, AcceptTransfer(s, id)) && SameBank(s, CancelTransfer(s, id)) && SameBank(s, AddTag(s, id, tag))
  {
    hide CheckCreate, NewEntry, Filed, Unfiled, Categorized, CheckAccept, Handed, Buckets.Append;
  }

  lemma SettingsBank(s: State, id: nat, admin: Address, fee: nat, category: Category, days: nat, bps: nat, config: Config)
    ensures SameBank(s, SetFeeOverride(s, id, admin, fee)) && SameBank(s, UpdatePlatformFee(s, fee))
    ensures SameBank(s, SetVestingParams(s, admin, days, bps)) && SameBank(s, SetCategoryDurationCap(s, admin, category, days))
    ensures SameBank(s, Reconfigured(s, config))
  {
    hide ValidConfig;
  }

  // ---- Every call ---------------------------------------------------------------------------

  lemma SamePays(s: State, op: Op, r: Result<State>)
    requires SameBank(s, r) && PaymentsOf(s, op) == []
    ensures PaysFor(s, op, r)
  {
    hide PaymentsOf, Pays;
    PayNone(s.bank);
  }

  lemma EscrowPays(s: State, op: Op)
    requires Inv(s) && EscrowCall(op)
    ensures PaysFor(s, op, CallEscrow(s, op))
  {
    hide Inv, PaysFor, SameBank, CampaignPayments, Contribute, BatchContribute, ClaimRefund, SetPersonalCap, RemovePersonalCap,
         WithdrawFunds, WithdrawReserve, CancelCampaign, AdminCancelCampaign;
    match op
    case DoContribute(id, who, amount) => ContributePays(s, id, who, amount);
    case DoBatchContribute(who, items) => BatchPays(s, who, items);
    case DoClaimRefund(id, who) => RefundPays(s, id, who);
    case DoSetPersonalCap(id, who, amount) => CapBank(s, id, who, amount); SamePays(s, op, CallEscrow(s, op));
    case DoRemovePersonalCap(id, who) => CapBank(s, id, who, 0); SamePays(s, op, CallEscrow(s, op));
    case DoWithdrawFunds(id) => WithdrawPays(s, id);
    case DoWithdrawReserve(id) => ReservePays(s, id);
    case DoCancel(id) => CancelBank(s, id); SamePays(s, op, CallEscrow(s, op));
    case DoAdminCancel(admin, id, reason) => AdminCancelBank(s, admin, id, reason); SamePays(s, op, CallEscrow(s, op));
  }

  lemma PayoutPays(s: State, op: Op)
    requires Inv(s) && PayoutCall(op)
    ensures PaysFor(s, op, CallPayout(s, op))
  {
    hide Inv, PaysFor, SameBank, CampaignPayments, SetMilestones, VerifyMilestone, ClaimMilestone, DepositRevenue, ClaimRevenue,
         ClaimCreatorRevenue;
    match op
    case DoSetMilestones(id, list) => MilestoneBank(s, id, list, 0, 0); SamePays(s, op, CallPayout(s, op));
    case DoVerifyMilestone(admin, id, mid) => MilestoneBank(s, id, [], admin, mid); SamePays(s, op, CallPayout(s, op));
    case DoClaimMilestone(id, mid) => ClaimPays(s, id, mid);
    case DoDepositRevenue(id, amount) => DepositPays(s, id, amount);
    case DoClaimRevenue(id, who) => RevenueClaimPays(s, id, who);
    case DoClaimCreatorRevenue(id) => CreatorClaimPays(s, id);
  }

  lemma VotePays(s: State, op: Op)
    requires VoteCall(op)
    ensures PaysFor(s, op, CallVote(s, op))
  {
    hide PaysFor, SameBank, CampaignPayments, CastVote, VerifyCampaign, VerifyCampaigns, VerifyWithVotes, PurgeVotingState,
         UpdateDescription, ExtendDeadline;
    match op
    case DoCastVote(id, voter, approve) => VoteBank(s, id, voter, approve); SamePays(s, op, CallVote(s, op));
    case DoVerify(id) => VerifyBank(s, id, []); SamePays(s, op, CallVote(s, op));
    case DoVerifyMany(ids) => VerifyBank(s, 0, ids); SamePays(s, op, CallVote(s, op));
    case DoVerifyWithVotes(id) => VerifyBank(s, id, []); SamePays(s, op, CallVote(s, op));
    case DoPurge(id, voters, finalize) => EditBank(s, id, voters, finalize, [], 0); SamePays(s, op, CallVote(s, op));
    case DoUpdateDescription(id, description) => EditBank(s, id, [], false, description, 0); SamePays(s, op, CallVote(s, op));
    case DoExtendDeadline(id, days) => EditBank(s, id, [], false, [], days); SamePays(s, op, CallVote(s, op));
  }

  const NO_PARAMS: CreateParams := CreateParams(0, [], 0, 0, Learner, false, 0, 0)

  lemma RegistryPays(s: State, op: Op)
    requires RegistryCall(op)
    ensures PaysFor(s, op, CallRegistry(s, op))
  {
    hide PaysFor, SameBank, CampaignPayments, CreateCampaign, InitiateTransfer, AcceptTransfer, CancelTransfer, AddTag;
    match op
    case DoCreate(params, token) => RegistryBank(s, 0, params, token, 0, []); SamePays(s, op, CallRegistry(s, op));
    case DoInitiateTransfer(id, to) => RegistryBank(s, id, NO_PARAMS, None, to, []); SamePays(s, op, CallRegistry(s, op));
    case DoAcceptTransfer(id) => RegistryBank(s, id, NO_PARAMS, None, 0, []); SamePays(s, op, CallRegistry(s, op));
    case DoCancelTransfer(id) => RegistryBank(s, id, NO_PARAMS, None, 0, []); SamePays(s, op, CallRegistry(s, op));
    case DoAddTag(id, tag) => RegistryBank(s, id, NO_PARAMS, None, 0, tag); SamePays(s, op, CallRegistry(s, op));
  }

  lemma SettingPays(s: State, op: Op)
    requires SettingCall(op) && !op.OutsideMove?
    ensures PaysFor(s, op, CallSetting(s, op))
  {
    hide PaysFor, CampaignPayments, SetFeeOverride, UpdatePlatformFee, SetVestingParams, SetCategoryDurationCap,
         Reconfigured;
    match op {
      case DoSetFeeOverride(id, admin, fee) => SettingsBank(s, id, admin, fee, Learner, 0, 0, s.config);
      case DoUpdatePlatformFee(fee) => SettingsBank(s, 0, 0, fee, Learner, 0, 0, s.config);
      case DoSetVestingParams(admin, days, bps) => SettingsBank(s, 0, admin, 0, Learner, days, bps, s.config);
      case DoSetDurationCap(admin, category, days) => SettingsBank(s, 0, admin, 0, category, days, 0, s.config);
      case Configure(config) => SettingsBank(s, 0, 0, 0, Learner, 0, 0, config);
      case SetPaused(_) =>
      case Tick(_, _) =>
    }
    SamePays(s, op, CallSetting(s, op));
  }

  /** Every call moves exactly its payments: no other balance of any token changes by a unit. */
  lemma EveryCallPays(s: State, op: Op)
    requires Inv(s) && !op.OutsideMove?
    ensures PaysFor(s, op, Call(s, op))
  {
    hide Inv, PaysFor, CallEscrow, CallPayout, CallVote, CallRegistry, CallSetting;
    if EscrowCall(op) {
      EscrowPays(s, op);
    } else if PayoutCall(op) {
      PayoutPays(s, op);
    } else if VoteCall(op) {
      VotePays(s, op);
    } else if RegistryCall(op) {
      RegistryPays(s, op);
    } else {
      SettingPays(s, op);
    }
  }
}
