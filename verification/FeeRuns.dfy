/** What withdrawals and milestone claims pay on runs: fee rate, roundings and vesting terms traced to the calls that set them. */
module FeeRuns {
  import opened Types
  import opened State
  import opened Payouts
  import opened MilestonePayouts
  import opened Invariants
  import opened Compose
  import opened ContributionProofs
  import opened MilestoneProofs
  import opened MilestoneSound
  import opened MilestoneTheorems
  import opened PayoutProofs
  import opened Runs
  import opened Frames
  import opened Traces
  import opened Payments
  import opened Rounding
  import Slices
  import EscrowTheorems

  /** A campaign's own fee, or the platform's. */
  function Rate(own: Option<nat>, platform: nat): nat { if own.Some? then own.value else platform }

  lemma RateIs(config: Config, c: Campaign)
    ensures FeeRate(config, c) == Rate(c.feeOverride, config.platformFee)
  {
  }

  // ---- withdraw_funds -----------------------------------------------------------------------

  /** Fee and reserve rounded up, the creator gets the rest, and the reserve waits out the vesting delay. */
  ghost predicate PaysOut(s: State, s': State, id: nat, rate: nat, vestingBps: nat, delayDays: nat, fee: int, reserve: int, rest: int) {
    && id in s.entries && id in s'.entries
    && var e := s.entries[id];
       && Ceiled(fee, e.campaign.amountRaised * rate, BPS)
       && Ceiled(reserve, (e.campaign.amountRaised - fee) * vestingBps, BPS)
       && fee + reserve + rest == e.campaign.amountRaised
       && Pays(s.bank, s'.bank, [Payment(e.terms.token, SELF, e.ledger.feeRecipient.GetOr(s.config.admin), fee)]
                                + [Payment(e.terms.token, SELF, e.campaign.creator, rest)])
       && s'.entries[id].reserve == if 0 < reserve then Some(Reserve(reserve, s.now + delayDays * SECONDS_PER_DAY, false)) else None
  }

  lemma WithdrawalSplits(s: State, id: nat, s': State) returns (fee: int, reserve: int, rest: int)
    requires Inv(s) && WithdrawFunds(s, id) == Ok(s')
    ensures id in s.entries
    ensures var e := s.entries[id];
            PaysOut(s, s', id, Rate(e.campaign.feeOverride, s.config.platformFee), e.terms.vestingBps, e.terms.vestingDelayDays, fee, reserve, rest)
  {
    hide Inv, WithdrawFunds, SplitOf, Transfer, FeeRate, Pays, LedgerInv, PaidInv, RevenueInv, VotesInv, RefundInv, MilestoneInv;
    WithdrawShape(s, id);
    WithdrawPays(s, id);
    RateFrom(s, id);
    FromInv(s, id);
    var e := s.entries[id];
    EscrowTheorems.FundedIsWhole(s, id);
    RaisedNonNegative(e.campaign, e.ledger);
    SplitAddsUp(s.config, e);
    RateIs(s.config, e.campaign);
    var p := SplitOf(s.config, e);
    fee, reserve, rest := p.fee, p.reserve, p.creator;
  }

  /**
   On every run a withdrawal takes its fee at the campaign's own rate as last set, or else the platform's rate of the
   moment, and its reserve and delay from the vesting settings of the campaign's creation.
   */
  lemma WithdrawalOnRuns(s: State, ops: seq<Op>, id: nat, c: nat, s': State) returns (fee: int, reserve: int, rest: int)
    requires Init(s) && CreatedAt(s, ops, id, c) && WithdrawFunds(Run(s, ops), id) == Ok(s')
    ensures var t, was := Run(s, ops), At(s, ops, c).config;
            PaysOut(t, s', id, Rate(OverrideOf(s, ops, id), t.config.platformFee), was.vestingBps, was.vestingDelayDays, fee, reserve, rest)
  {
    hide Init, Inv, Run, Call, WithdrawFunds, PaysOut, CreatedAt;
    CreatedInRange(s, ops, id, c);
    ReachableInv(s, ops);
    fee, reserve, rest := WithdrawalSplits(Run(s, ops), id, s');
    OverrideIsLastSet(s, ops, id);
    TermsFromCreation(s, ops, id, c);
  }

  // ---- claim_milestone ----------------------------------------------------------------------

  lemma SliceFloored(x: int, bps: nat)
    ensures Floored(Slice(x, bps), x * bps, BPS)
  {
    FloorIs(x * bps, BPS);
  }

  /** The rounded-down slices of `x` for the claimed milestones. */
  function FloorSum(list: seq<Milestone>, claimed: set<nat>, x: int): int {
    if list == [] then 0
    else
      var m := list[|list| - 1];
      FloorSum(list[..|list| - 1], claimed, x) + if m.id in claimed then x * m.payoutBps / BPS else 0
  }

  lemma {:induction false} FloorSumIs(list: seq<Milestone>, claimed: set<nat>, x: int)
    ensures ClaimedSlices(list, claimed, x) == FloorSum(list, claimed, x)
    decreases |list|
  {
    if list != [] {
      FloorSumIs(list[..|list| - 1], claimed, x);
    }
  }

  predicate OthersClaimed(ms: Milestones, k: nat)
    requires k < |ms.list|
  {
    forall i | 0 <= i < |ms.list| && i != k :: ms.list[i].id in ms.claimed
  }

  /** One of the two shares of `x`: its slice, or for the last milestone what the claimed slices leave. */
  predicate PartOf(ms: Milestones, k: nat, x: int, pay: int)
    requires k < |ms.list|
  {
    if OthersClaimed(ms, k) then pay == x - FloorSum(ms.list, ms.claimed, x)
    else Floored(pay, x * ms.list[k].payoutBps, BPS)
  }

  /** A claim of the `k`-th milestone pays its parts of the fee, rounded up at `rate`, and of what the fee leaves. */
  ghost predicate PaysMilestone(s: State, s': State, id: nat, rate: nat, k: nat, fee: int, feePay: int, pay: int) {
    && id in s.entries && k < |s.entries[id].milestones.list|
    && var e := s.entries[id];
       && Ceiled(fee, e.campaign.amountRaised * rate, BPS)
       && PartOf(e.milestones, k, fee, feePay)
       && PartOf(e.milestones, k, e.campaign.amountRaised - fee, pay)
       && Pays(s.bank, s'.bank, [Payment(e.terms.token, SELF, s.config.admin, feePay)] + [Payment(e.terms.token, SELF, e.campaign.creator, pay)])
  }

  lemma ClaimSplits(s: State, id: nat, mid: nat, s': State) returns (k: nat, fee: int, feePay: int, pay: int)
    requires Inv(s) && ClaimMilestone(s, id, mid) == Ok(s')
    ensures id in s.entries
    ensures PaysMilestone(s, s', id, Rate(s.entries[id].campaign.feeOverride, s.config.platformFee), k, fee, feePay, pay)
    ensures s.entries[id].milestones.list[k].id == mid
  {
    hide Inv, ClaimMilestone, Transfer, FeeRate, SliceUp, Pays, MilestoneInv, PaidInv, WellFormed, PayoutOf, FeePayoutOf, PartOf, Find, AllOthersClaimed, PayFee;
    ClaimShape(s, id, mid);
    Payments.ClaimPays(s, id, mid);
    RateFrom(s, id);
    MilestonesFrom(s, id);
    var e, rate := s.entries[id], FeeRate(s.config, s.entries[id].campaign);
    var raised, ms := e.campaign.amountRaised, e.milestones;
    k := Slices.FindFinds(ms.list, mid);
    ListFormed(e.campaign, ms, k);
    RateIs(s.config, e.campaign);
    Slices.FeeMono(raised, raised, rate);
    fee := SliceUp(raised, rate);
    FeeCeiled(raised, rate);
    feePay, pay := FeePayoutOf(ms, ms.list[k], fee), PayoutOf(ms, ms.list[k], raised - fee);
    PartIs(ms, k, fee);
    PartIs(ms, k, raised - fee);
    Checked(s, id, mid);
  }

  lemma Checked(s: State, id: nat, mid: nat)
    requires ClaimMilestone(s, id, mid).Ok?
    ensures CheckClaim(s, id, mid).Ok?
  {
    hide CheckClaim;
  }

  lemma FeeCeiled(raised: int, rate: nat)
    ensures Ceiled(SliceUp(raised, rate), raised * rate, BPS)
  {
    CeilIs(raised * rate, BPS);
  }

  lemma PartIs(ms: Milestones, k: nat, x: int)
    requires WellFormed(ms.list) && k < |ms.list| && ms.list[k].id !in ms.claimed && 0 <= x
    ensures PartOf(ms, k, x, PayoutOf(ms, ms.list[k], x)) && FeePayoutOf(ms, ms.list[k], x) == PayoutOf(ms, ms.list[k], x)
  {
    hide WellFormed, ClaimedSlices, Slice, Floored;
    Slices.LastIffOthersClaimed(ms, k);
    ClaimReleases(ms, k, x);
    SliceFloored(x, ms.list[k].payoutBps);
    FloorSumIs(ms.list, ms.claimed, x);
    OthersByIndex(ms, k);
  }

  lemma OthersByIndex(ms: Milestones, k: nat)
    requires WellFormed(ms.list) && k < |ms.list|
    ensures OthersClaimed(ms, k) <==> AllOthersClaimed(ms, ms.list[k].id)
  {
  }

  /** On every run a milestone claim takes its fee at the campaign's own rate as last set, or else the platform's of the moment. */
  lemma ClaimOnRuns(s: State, ops: seq<Op>, id: nat, mid: nat, s': State) returns (k: nat, fee: int, feePay: int, pay: int)
    requires Init(s) && ClaimMilestone(Run(s, ops), id, mid) == Ok(s')
    ensures PaysMilestone(Run(s, ops), s', id, Rate(OverrideOf(s, ops, id), Run(s, ops).config.platformFee), k, fee, feePay, pay)
    ensures Run(s, ops).entries[id].milestones.list[k].id == mid
  {
    hide Init, Inv, Run, Call, ClaimMilestone, PaysMilestone;
    ReachableInv(s, ops);
    k, fee, feePay, pay := ClaimSplits(Run(s, ops), id, mid, s');
    ClaimedInRange(Run(s, ops), s', id, Rate(Run(s, ops).entries[id].campaign.feeOverride, Run(s, ops).config.platformFee), k, fee, feePay, pay);
    OverrideIsLastSet(s, ops, id);
  }

  lemma ClaimedInRange(s: State, s': State, id: nat, rate: nat, k: nat, fee: int, feePay: int, pay: int)
    requires PaysMilestone(s, s', id, rate, k, fee, feePay, pay)
    ensures id in s.entries && k < |s.entries[id].milestones.list|
  {
    hide Pays, PartOf, Ceiled;
  }
}
