/**
 When each entry point goes through: for all inputs, the exact conditions on what is stored, in whatever order the code
 checks them.
 */
module Acceptance {
  import opened Types
  import opened State
  import opened Contributions
  import opened Payouts
  import opened MilestonePayouts
  import opened RevenueSharing
  import opened Governance
  import opened Registry
  import opened Invariants
  import opened Compose
  import opened ContributionProofs
  import opened Solvency
  import opened Rounding
  import opened FeeRuns
  import EscrowTheorems
  import IndexTheorems
  import PayoutProofs
  import Buckets
  import GovernanceProofs
  import Slices
  import VoteTheorems
  import MilestoneSound
  import MilestoneOrders
  import MilestoneRuns
  import RevenueRuns
  import RevenueProofs
  import IndexProofs

  predicate Live(c: Campaign) { c.isActive && !c.isCancelled }

  // ---- Contributions ------------------------------------------------------------------------

  /** Everything a contribution has to satisfy but the limit on bursts. */
  predicate Welcome(s: State, id: nat, who: Address, amount: int) {
    && who != SELF && !s.paused && 0 < amount && id in s.entries
    && var c, l := s.entries[id].campaign, s.entries[id].ledger;
       && c.isVerified && Live(c) && who != c.creator && s.now <= c.deadline
       && (s.config.maxPerTransaction <= 0 || amount <= s.config.maxPerTransaction)
       && (0 < c.maxPerUser ==> Get(l.lifetime, who) + amount <= c.maxPerUser && FitsI128(Get(l.lifetime, who) + amount))
       && (who in l.personalCaps ==>
             Get(l.contributions, who) + amount <= l.personalCaps[who] && FitsI128(Get(l.contributions, who) + amount))
       && amount <= 2 * c.fundingGoal
       && FitsI128(amount * 10_000) && FitsI128(c.fundingGoal * 20_000) && FitsI128(c.amountRaised * 10_000)
  }

  predicate RoomToAccount(s: State, e: Entry, who: Address, amount: int) {
    && FitsI128(e.campaign.amountRaised + amount) && FitsI128(e.campaign.effectiveRaised + amount)
    && FitsI128(Get(e.ledger.contributions, who) + amount) && FitsI128(Get(e.ledger.lifetime, who) + amount)
    && FitsI128(s.totalRaised + amount)
  }

  predicate OverHalf(c: Campaign) { c.fundingGoal < 2 * c.amountRaised }

  /** Contributions counted at ledger number `n` so far. */
  function Burst(l: Ledger, n: nat): nat { if l.burstLedger == n then l.burstCount else 0 }

  lemma BurstChecked(c: Campaign, l: Ledger, n: nat, amount: int)
    requires 0 < amount && 0 < c.fundingGoal
    ensures BurstGuard(c, l, n, amount).Ok?
       <==> (&& FitsI128(amount * 10_000) && FitsI128(c.fundingGoal * 20_000) && FitsI128(c.amountRaised * 10_000)
             && amount <= 2 * c.fundingGoal && (OverHalf(c) ==> Burst(l, n) < 10))
    ensures BurstGuard(c, l, n, amount).Ok? ==>
              BurstGuard(c, l, n, amount).value == if OverHalf(c) then (n, Burst(l, n) + 1) else (l.burstLedger, l.burstCount)
    ensures (&& FitsI128(amount * 10_000) && FitsI128(c.fundingGoal * 20_000) && FitsI128(c.amountRaised * 10_000)
             && amount <= 2 * c.fundingGoal && OverHalf(c) && 10 <= Burst(l, n))
            ==> BurstGuard(c, l, n, amount) == Err(ContractPaused)
  {
  }

  lemma GoalPositive(s: State, id: nat)
    requires Inv(s) && id in s.entries
    ensures 0 < s.entries[id].campaign.fundingGoal && s.entries[id].campaign.creator != SELF
  {
    hide Inv, LedgerInv, RevenueInv, PaidInv, VotesInv, RefundInv, MilestoneInv;
    FromInv(s, id);
  }

  /**
   A contribution goes through exactly when it is welcome, the accounting has room, the contributor has the tokens and,
   once more than half the goal is raised, fewer than ten came at the same ledger number before it.
   */
  lemma ContributeIff(s: State, id: nat, who: Address, amount: int)
    requires Inv(s)
    ensures Contribute(s, id, who, amount).Ok?
       <==> (&& Welcome(s, id, who, amount)
             && var e := s.entries[id];
                && (OverHalf(e.campaign) ==> Burst(e.ledger, s.ledgerSeq) < 10)
                && RoomToAccount(s, e, who, amount) && amount <= Balance(s.bank, e.terms.token, who))
    ensures Welcome(s, id, who, amount) && OverHalf(s.entries[id].campaign) && 10 <= Burst(s.entries[id].ledger, s.ledgerSeq) ==>
              Contribute(s, id, who, amount) == Err(ContractPaused)
  {
    hide Inv, BurstGuard, Accounted, Balance, Credit, Burst;
    if id in s.entries && 0 < amount {
      GoalPositive(s, id);
      BurstChecked(s.entries[id].campaign, s.entries[id].ledger, s.ledgerSeq, amount);
    }
  }

  // ---- Refunds ------------------------------------------------------------------------------

  /** Cancelled, or past its deadline short of its goal. */
  predicate Failed(now: nat, c: Campaign) { c.isCancelled || (c.deadline < now && c.amountRaised < c.fundingGoal) }

  /** A refund goes through exactly when the campaign failed, the caller has something in it and the contract has the tokens. */
  lemma RefundIff(s: State, id: nat, who: Address)
    ensures ClaimRefund(s, id, who).Ok?
       <==> (&& who != SELF && !s.paused && id in s.entries
             && var e := s.entries[id];
                var amount := Get(e.ledger.contributions, who);
                && Failed(s.now, e.campaign) && amount != 0
                && FitsI128(e.campaign.effectiveRaised - amount) && (!e.campaign.isCancelled ==> FitsI128(s.totalRaised - amount))
                && 0 <= amount <= Balance(s.bank, e.terms.token, SELF))
  {
    hide Balance, Credit;
  }

  lemma EffectiveFits(s: State, id: nat, who: Address)
    requires Inv(s) && id in s.entries && Get(s.entries[id].ledger.contributions, who) != 0
    ensures var e := s.entries[id];
            && 0 < Get(e.ledger.contributions, who) <= e.campaign.effectiveRaised <= e.campaign.amountRaised
            && FitsI128(e.campaign.effectiveRaised - Get(e.ledger.contributions, who)) && who != SELF
  {
    hide Inv, RevenueInv, PaidInv, VotesInv, MilestoneInv;
    FromInv(s, id);
    var e := s.entries[id];
    RevenueProofs.EffectivePositive(e.campaign, e.ledger, who);
    RaisedNonNegative(e.campaign, e.ledger);
  }

  /**
   While the token's campaigns are clean every contributor of a failed campaign is refunded on request, unless the
   contract is paused or the total's bookkeeping has no room.
   */
  lemma DueRefundGoesThrough(s: State, id: nat, who: Address)
    requires Inv(s) && id in s.entries && CleanToken(s, s.entries[id].terms.token)
    requires Failed(s.now, s.entries[id].campaign) && Get(s.entries[id].ledger.contributions, who) != 0
    ensures ClaimRefund(s, id, who).Ok?
       <==> !s.paused && (s.entries[id].campaign.isCancelled || FitsI128(s.totalRaised - Get(s.entries[id].ledger.contributions, who)))
  {
    hide Inv, CleanToken, ClaimRefund, Balance;
    RefundIff(s, id, who);
    EffectiveFits(s, id, who);
    RefundCovered(s, id, who);
  }

  lemma RefundCovered(s: State, id: nat, who: Address)
    requires Inv(s) && id in s.entries && CleanToken(s, s.entries[id].terms.token)
    requires Failed(s.now, s.entries[id].campaign) && Get(s.entries[id].ledger.contributions, who) != 0
    ensures Get(s.entries[id].ledger.contributions, who) <= Balance(s.bank, s.entries[id].terms.token, SELF)
  {
    hide Inv, EscrowTheorems.Clean, HeldRevenue, HeldEscrow;
    EscrowTheorems.BalanceCovers(s, id);
    assert EscrowTheorems.Clean(s.entries[id], AuditOf(s, id));
    EscrowTheorems.CleanIsSolvent(s, id);
    EscrowTheorems.RefundWithinEscrow(s, id, who);
  }

  // ---- Withdrawals --------------------------------------------------------------------------

  /** Numbers far from the ends of their types, as far as a withdrawal goes. */
  predicate RoomToWithdraw(s: State, e: Entry) {
    && FitsI128(e.campaign.amountRaised * BPS + BPS_CEIL_OFFSET)
    && FitsU64(s.now + e.terms.vestingDelayDays * SECONDS_PER_DAY)
    && FitsI128(s.totalRaised) && FitsI128(s.totalRaised - e.campaign.amountRaised)
  }

  /** With room and clean books, funds are withdrawn exactly from a verified, open, funded campaign without milestones. */
  lemma WithdrawIff(s: State, id: nat)
    requires Inv(s) && id in s.entries && CleanToken(s, s.entries[id].terms.token) && RoomToWithdraw(s, s.entries[id])
    ensures var e := s.entries[id];
            WithdrawFunds(s, id).Ok?
            <==> (&& !s.paused && e.milestones.list == [] && e.campaign.isVerified && !e.campaign.isCancelled
                  && !e.campaign.fundsWithdrawn && e.campaign.fundingGoal <= e.campaign.amountRaised)
  {
    hide Inv, CleanToken, SplitOf, SplitFits, FeeRate, Balance, Credit;
    WithdrawCovered(s, id);
    GoalPositive(s, id);
    var e := s.entries[id];
    if !e.campaign.isCancelled && e.campaign.fundingGoal <= e.campaign.amountRaised {
      EscrowTheorems.FundedIsWhole(s, id);
      SplitRoom(s, id);
    }
  }

  lemma WithdrawCovered(s: State, id: nat)
    requires Inv(s) && id in s.entries && CleanToken(s, s.entries[id].terms.token)
    ensures WithdrawFunds(s, id) != Err(TransferFailed)
  {
    hide Inv, EscrowTheorems.Clean, WithdrawFunds, WithdrawReserve;
    EscrowTheorems.WithdrawalNeverShort(s, id);
  }

  lemma SplitRoom(s: State, id: nat)
    requires Inv(s) && id in s.entries && RoomToWithdraw(s, s.entries[id])
    requires s.entries[id].campaign.effectiveRaised == s.entries[id].campaign.amountRaised
    ensures SplitFits(s.config, s.entries[id])
    ensures var e, p := s.entries[id], SplitOf(s.config, s.entries[id]);
            FitsI128(s.totalRaised - (e.campaign.effectiveRaised - p.reserve))
  {
    hide Inv, FeeRate, LedgerInv, PaidInv, RevenueInv, VotesInv, RefundInv, MilestoneInv;
    FromInv(s, id);
    MilestoneSound.RateFrom(s, id);
    var e := s.entries[id];
    RaisedNonNegative(e.campaign, e.ledger);
    var raised, rate := e.campaign.amountRaised, FeeRate(s.config, e.campaign);
    PayoutProofs.SplitAddsUp(s.config, e);
    var p := SplitOf(s.config, e);
    Within(raised, raised, rate);
    Within(raised - p.fee, raised, e.terms.vestingBps);
  }

  lemma Within(x: int, y: int, bps: nat)
    requires 0 <= x <= y && bps <= BPS
    ensures 0 <= x * bps <= y * BPS
  {
    Scale(x, y, bps);
    assert y * BPS == y * bps + y * (BPS - bps);
    assert 0 <= y * (BPS - bps);
  }

  // ---- Milestones ---------------------------------------------------------------------------

  /**
   With room and clean books, and at the fee rate of the earlier claims, a milestone of a funded campaign is paid exactly
   if it is listed, verified and unclaimed and either its slice of what the fee leaves is at least 1 or it is the last
   and the fee leaves anything at all.
   */
  lemma ClaimMilestoneIff(s: State, id: nat, mid: nat, fee: int)
    requires Inv(s) && id in s.entries && CleanToken(s, s.entries[id].terms.token) && MilestoneRuns.RaisedFits(s, id)
    requires SameRate(AuditOf(s, id), FeeRate(s.config, s.entries[id].campaign))
    requires Ceiled(fee, s.entries[id].campaign.amountRaised * Rate(s.entries[id].campaign.feeOverride, s.config.platformFee), BPS)
    ensures var e := s.entries[id];
            var c, ms, left := e.campaign, e.milestones, e.campaign.amountRaised - fee;
            ClaimMilestone(s, id, mid).Ok?
            <==> (&& !s.paused && c.isVerified && !c.isCancelled && !c.fundsWithdrawn && c.fundingGoal <= c.amountRaised
                  && mid !in ms.claimed && SomePaid(ms, mid, left))
  {
    hide Inv, CleanToken, MilestoneRuns.RaisedFits, SameRate, FeeRate, ClaimMilestone, SomePaid, MilestoneOrders.ClaimNext, Ceiled;
    GoalPositive(s, id);
    RateIs(s.config, s.entries[id].campaign);
    if MilestoneOrders.GuardsPass(s, id) {
      MilestoneRuns.ClaimSucceedsIff(s, id, mid);
      NextIff(s, id, mid, fee);
    } else if ClaimMilestone(s, id, mid).Ok? {
      GuardsNeeded(s, id, mid);
    }
  }

  /** The `k`-th milestone has this id, is verified and pays something of `left`. */
  predicate PaysSome(ms: Milestones, k: nat, mid: nat, left: int)
    requires k < |ms.list|
  {
    && ms.list[k].id == mid && ms.list[k].verified
    && if OthersClaimed(ms, k) then 0 < left else BPS <= left * ms.list[k].payoutBps
  }

  predicate SomePaid(ms: Milestones, mid: nat, left: int) { exists k: nat | k < |ms.list| :: PaysSome(ms, k, mid, left) }

  lemma GuardsNeeded(s: State, id: nat, mid: nat)
    requires Inv(s) && ClaimMilestone(s, id, mid).Ok?
    ensures MilestoneOrders.GuardsPass(s, id)
  {
    hide Inv, PayoutOf, FeePayoutOf, MilestonePayouts.ClaimFits, SliceUp, Find, FeeRate, PayClaim, ClaimedEntry, ClaimAudit, AllOthersClaimed;
  }

  lemma NextIff(s: State, id: nat, mid: nat, fee: int)
    requires Inv(s) && id in s.entries
    requires Ceiled(fee, s.entries[id].campaign.amountRaised * FeeRate(s.config, s.entries[id].campaign), BPS)
    ensures var e := s.entries[id];
            MilestoneOrders.ClaimNext(e.milestones, mid, MilestoneOrders.CreatorTotal(s, id)).Ok?
            <==> mid !in e.milestones.claimed && SomePaid(e.milestones, mid, e.campaign.amountRaised - fee)
  {
    hide Inv, FeeRate, SliceUp, MilestoneInv, PaidInv, WellFormed, PayoutOf, Find, Ceiled, SomePaid, SameRate;
    var e := s.entries[id];
    var raised, rate, ms := e.campaign.amountRaised, FeeRate(s.config, e.campaign), e.milestones;
    MilestoneSound.MilestonesFrom(s, id);
    MilestoneSound.RateFrom(s, id);
    FeeCeiled(raised, rate);
    CeiledOnce(fee, SliceUp(raised, rate), raised * rate, BPS);
    Slices.FeeMono(raised, raised, rate);
    if Find(ms.list, mid).Some? {
      var k := Slices.FindFinds(ms.list, mid);
      MilestoneSound.ListFormed(e.campaign, ms, k);
      if mid !in ms.claimed {
        FoundPays(ms, k, raised - fee);
      }
    } else {
      NotListed(ms, mid, raised - fee);
    }
  }

  lemma {:induction false} FindMisses(list: seq<Milestone>, mid: nat)
    ensures Find(list, mid).None? ==> forall k | 0 <= k < |list| :: list[k].id != mid
    decreases |list|
  {
    if list != [] {
      FindMisses(list[1..], mid);
      forall k | 0 <= k < |list| && Find(list, mid).None?
        ensures list[k].id != mid
      {
        if k > 0 {
          assert list[k] == list[1..][k - 1];
        }
      }
    }
  }

  lemma NotListed(ms: Milestones, mid: nat, left: int)
    requires Find(ms.list, mid).None?
    ensures !SomePaid(ms, mid, left)
  {
    hide Find;
    FindMisses(ms.list, mid);
  }

  lemma FoundPays(ms: Milestones, k: nat, left: int)
    requires WellFormed(ms.list) && k < |ms.list| && ms.list[k].id !in ms.claimed && 0 <= left
    ensures SomePaid(ms, ms.list[k].id, left)
       <==> ms.list[k].verified && 0 < PayoutOf(ms, ms.list[k], left)
  {
    hide PayoutOf, OthersClaimed;
    PaysIff(ms, k, left);
    assert PaysSome(ms, k, ms.list[k].id, left) <==> ms.list[k].verified && 0 < PayoutOf(ms, ms.list[k], left);
    forall i: nat | i < |ms.list| && PaysSome(ms, i, ms.list[k].id, left)
      ensures i == k
    {
      assert ms.list[i].id == ms.list[k].id;
    }
  }

  lemma PaysIff(ms: Milestones, k: nat, left: int)
    requires WellFormed(ms.list) && k < |ms.list| && ms.list[k].id !in ms.claimed && 0 <= left
    ensures 0 < PayoutOf(ms, ms.list[k], left)
       <==> if OthersClaimed(ms, k) then 0 < left else BPS <= left * ms.list[k].payoutBps
  {
    hide WellFormed, Slice;
    Slices.LastIffOthersClaimed(ms, k);
    OthersByIndex(ms, k);
    SliceFloored(left, ms.list[k].payoutBps);
    FloorAtLeast(Slice(left, ms.list[k].payoutBps), left * ms.list[k].payoutBps, BPS, 1);
    if OthersClaimed(ms, k) {
      Slices.LastLeaves(ms, k, left);
    }
  }

  // ---- Revenue deposits and cancellations ---------------------------------------------------

  lemma Flags(s: State, id: nat)
    requires Inv(s) && id in s.entries
    ensures var c := s.entries[id].campaign;
            && c.creator != SELF && 0 < c.fundingGoal && 0 <= c.amountRaised && FitsI128(c.amountRaised)
            && (c.isActive <==> !c.isCancelled && !c.fundsWithdrawn)
            && (c.fundsWithdrawn ==> c.fundingGoal <= c.amountRaised)
            && s.entries[id].terms.startTime + SECONDS_PER_DAY <= c.deadline
  {
    hide Inv, LedgerInv, RevenueInv, PaidInv, VotesInv, RefundInv, MilestoneInv;
    FromInv(s, id);
    RaisedNonNegative(s.entries[id].campaign, s.entries[id].ledger);
  }

  lemma DepositIff(s: State, id: nat, amount: int)
    requires Inv(s) && id in s.entries
    ensures var e := s.entries[id];
            DepositRevenue(s, id, amount).Ok?
            <==> (&& !s.paused && 0 < amount && e.campaign.fundsWithdrawn && e.campaign.hasRevenueSharing
                  && FitsI128(e.revenue.pool + amount) && amount <= Balance(s.bank, e.terms.token, e.campaign.creator))
  {
    hide Inv, Balance, Credit;
    Flags(s, id);
    EscrowTheorems.WithdrawnNotRefunded(s, id);
  }

  /** A creator can cancel exactly what is open and short of its goal. */
  lemma CancelIff(s: State, id: nat)
    requires Inv(s) && id in s.entries
    ensures var c := s.entries[id].campaign;
            CancelCampaign(s, id).Ok?
            <==> !s.paused && Live(c) && c.amountRaised < c.fundingGoal && (0 < c.amountRaised ==> FitsI128(s.totalRaised - c.amountRaised))
  {
    hide Inv, CancelledEntry, CancelCounters, Transfer;
    Flags(s, id);
    if !s.entries[id].campaign.fundsWithdrawn {
      EscrowTheorems.CancelMeetsNoPool(s, id);
    }
  }

  /** The admin can cancel, giving a reason, whatever is open. */
  lemma AdminCancelIff(s: State, admin: Address, id: nat, reason: string)
    requires Inv(s) && id in s.entries
    ensures var c := s.entries[id].campaign;
            AdminCancelCampaign(s, admin, id, reason).Ok?
            <==> (&& admin == s.config.admin && !s.paused && Live(c) && 0 < |reason| <= 1_000
                  && (0 < c.amountRaised ==> FitsI128(s.totalRaised - c.amountRaised)))
  {
    hide Inv, CancelledEntry, CancelCounters;
    Flags(s, id);
    MilestoneSound.RateFrom(s, id);
  }

  // ---- Votes and verification ---------------------------------------------------------------

  lemma CastVoteIff(s: State, id: nat, who: Address, approve: bool)
    requires Inv(s) && id in s.entries
    ensures var c, v := s.entries[id].campaign, s.entries[id].votes;
            CastVote(s, id, who, approve).Ok?
            <==> (&& !s.paused && who != SELF && Live(c) && !c.isVerified && s.now <= c.deadline && who !in v.voted
                  && 0 < Balance(s.bank, s.config.platformToken, who)
                  && s.config.minVotingBalance <= Balance(s.bank, s.config.platformToken, who)
                  && (if approve then v.approve < U32_MAX && v.approveWeight < I128_MAX
                      else v.reject < U32_MAX && v.rejectWeight < I128_MAX))
  {
    hide Inv, Balance, Counted;
    Flags(s, id);
  }

  /** The share of approving votes, in basis points, a campaign of this category needs. */
  function Threshold(config: Config, category: Category): nat {
    if category in config.categoryApprovalBps then config.categoryApprovalBps[category] else config.approvalBps
  }

  lemma VerifyWithVotesIff(s: State, id: nat)
    requires Inv(s) && id in s.entries
    ensures var c, v := s.entries[id].campaign, s.entries[id].votes;
            VerifyWithVotes(s, id).Ok?
            <==> (&& !s.paused && Live(c) && !c.isVerified && v.approve + v.reject <= U32_MAX
                  && s.config.quorum <= v.approve + v.reject
                  && Threshold(s.config, c.category) * (v.approve + v.reject) <= v.approve * BPS)
  {
    hide Inv, ApprovalBps;
    Flags(s, id);
    QuorumFrom(s);
    var c, v := s.entries[id].campaign, s.entries[id].votes;
    if s.config.quorum <= v.approve + v.reject {
      VoteTheorems.ThresholdExact(v, Threshold(s.config, c.category));
    }
  }

  lemma QuorumFrom(s: State)
    requires Inv(s)
    ensures 1 <= s.config.quorum && CanSign(s.config.admin)
  {
    hide EntriesInv, IdsInv, CountersInv, BankInv, IndexInv, GlobalShares;
  }

  lemma VerifyIff(s: State, id: nat)
    requires Inv(s) && id in s.entries
    ensures VerifyCampaign(s, id).Ok? <==> !s.paused && Live(s.entries[id].campaign) && !s.entries[id].campaign.isVerified
  {
    hide Inv;
    Flags(s, id);
    QuorumFrom(s);
  }

  lemma {:induction false} VerifyAllIff(s: State, ids: seq<nat>, id: nat)
    requires Inv(s)
    ensures var s' := VerifyAll(s, ids).0;
            && Inv(s')
            && (id in s'.entries <==> id in s.entries)
            && (id in s.entries ==>
                  var c, c' := s.entries[id].campaign, s'.entries[id].campaign;
                  (c'.isVerified <==> c.isVerified || (id in ids && Live(c))) && (Live(c') <==> Live(c)))
    decreases |ids|
  {
    hide Inv, AdminVerify;
    if ids != [] {
      var front, last := ids[..|ids| - 1], ids[|ids| - 1];
      VerifyAllIff(s, front, id);
      VerifyAllIff(s, front, last);
      AdminVerifyIff(VerifyAll(s, front).0, last);
      assert ids == front + [last];
    }
  }

  /** The batch verifies, of its first 50 ids, exactly the campaigns that are open and unverified, and no other. */
  lemma VerifyManyIff(s: State, ids: seq<nat>, id: nat)
    requires Inv(s)
    ensures VerifyCampaigns(s, ids).Ok? <==> !s.paused
    ensures VerifyCampaigns(s, ids).Ok? ==>
              var s' := VerifyCampaigns(s, ids).value;
              && (id in s'.entries <==> id in s.entries)
              && (id in s.entries ==>
                    (s'.entries[id].campaign.isVerified
                     <==> s.entries[id].campaign.isVerified
                          || (Live(s.entries[id].campaign) && exists i | 0 <= i < |ids| && i < 50 :: ids[i] == id)))
  {
    hide Inv, VerifyAll;
    QuorumFrom(s);
    VerifyAllIff(s, Batch(ids), id);
  }

  lemma AdminVerifyIff(s: State, id: nat)
    requires Inv(s)
    ensures AdminVerify(s, id).Ok? <==> id in s.entries && Live(s.entries[id].campaign) && !s.entries[id].campaign.isVerified
    ensures AdminVerify(s, id).Ok? ==>
              var s' := AdminVerify(s, id).value;
              Inv(s') && s'.entries == s.entries[id := s.entries[id].(campaign := s.entries[id].campaign.(isVerified := true))]
  {
    hide Inv, Evolves, Surplus;
    if id in s.entries {
      Flags(s, id);
    }
    GovernanceProofs.AdminVerifySound(s, id);
  }

  // ---- Edits and terms ----------------------------------------------------------------------

  lemma EditIff(s: State, id: nat, text: string)
    requires Inv(s) && id in s.entries
    ensures UpdateDescription(s, id, text).Ok? <==> !s.paused && Live(s.entries[id].campaign) && 0 < |text| <= 1_000
  {
    hide Inv, WithoutTally;
    Flags(s, id);
  }

  /** The longest a campaign of this category may run. */
  function LongestRun(config: Config, category: Category): nat {
    if category in config.durationCaps && config.durationCaps[category] < 365 then config.durationCaps[category] else 365
  }

  /** An extension goes through exactly once, in time, by at most 30 days and within the longest run, counted in whole days. */
  lemma ExtendIff(s: State, id: nat, days: nat)
    requires Inv(s) && id in s.entries
    ensures var c := s.entries[id].campaign;
            ExtendDeadline(s, id, days).Ok?
            <==> (&& !s.paused && Live(c) && !c.deadlineExtended && s.now < c.deadline && 0 < days <= 30
                  && FitsU64(c.deadline + days * 86_400)
                  && c.deadline + days * 86_400 < s.entries[id].terms.startTime + (LongestRun(s.config, c.category) + 1) * 86_400)
  {
    hide Inv;
    Flags(s, id);
    CapFrom(s);
  }

  lemma CapFrom(s: State)
    requires Inv(s)
    ensures forall k | k in s.config.durationCaps :: 1 <= s.config.durationCaps[k] <= 365
  {
    hide EntriesInv, IdsInv, CountersInv, BankInv, IndexInv, GlobalShares;
  }

  lemma FeeOverrideIff(s: State, id: nat, admin: Address, fee: nat)
    requires Inv(s) && id in s.entries
    ensures SetFeeOverride(s, id, admin, fee).Ok? <==> admin == s.config.admin && fee <= 1_000
  {
    hide Inv;
    QuorumFrom(s);
  }

  /** A campaign can be created exactly within the configured bounds, in the platform's token or an allowed one. */
  lemma CreateIff(s: State, p: CreateParams, token: Option<Address>)
    ensures CreateCampaign(s, p, token).Ok?
       <==> (&& p.creator != SELF && !s.paused && !s.config.creationDisabled
             && 0 < p.fundingGoal && s.config.minGoal <= p.fundingGoal <= s.config.maxGoal
             && 1 <= p.durationDays <= (if p.category in s.config.durationCaps then s.config.durationCaps[p.category] else 365)
             && 0 < |p.description| <= 1_000
             && (p.hasRevenueSharing ==> p.category == EducationalStartup && 0 < p.revenueShare <= 5_000)
             && 0 <= p.maxPerUser
             && (token.None? || token.value == s.config.platformToken || token.value in s.config.allowedTokens)
             && s.counters.campaigns < U32_MAX && FitsU64(s.now + p.durationDays * 86_400))
  {
    hide Filed, Categorized, NewEntry;
  }

  lemma SetMilestonesIff(s: State, id: nat, list: seq<Milestone>)
    requires Inv(s) && id in s.entries
    ensures var e := s.entries[id];
            SetMilestones(s, id, list).Ok?
            <==> (&& !s.paused && !e.campaign.isCancelled && !e.campaign.fundsWithdrawn && e.milestones.list == []
                  && 0 < |list| <= 10
                  && (forall i | 0 <= i < |list| :: 0 < list[i].payoutBps <= 10_000 && list[i].description != [])
                  && (forall i, j | 0 <= i < j < |list| :: list[i].id != list[j].id)
                  && TotalBps(list) == 10_000)
  {
    hide Inv, Normalized, TotalBps;
    Flags(s, id);
  }

  lemma VerifyMilestoneIff(s: State, admin: Address, id: nat, mid: nat)
    requires Inv(s) && id in s.entries
    ensures var e := s.entries[id];
            VerifyMilestone(s, admin, id, mid).Ok?
            <==> (&& admin == s.config.admin && !s.paused && !e.campaign.isCancelled
                  && exists k | 0 <= k < |e.milestones.list| :: e.milestones.list[k].id == mid && !e.milestones.list[k].verified)
  {
    hide Inv, MarkVerified, WellFormed, PaidInv;
    QuorumFrom(s);
    MilestoneSound.MilestonesFrom(s, id);
    IdsDistinct(s.entries[id]);
  }

  lemma IdsDistinct(e: Entry)
    requires MilestoneInv(e.campaign, e.milestones)
    ensures forall i, j | 0 <= i < j < |e.milestones.list| :: e.milestones.list[i].id != e.milestones.list[j].id
  {
  }

  // ---- Transfers, caps and tags -------------------------------------------------------------

  lemma InitiateIff(s: State, id: nat, to: Address)
    requires Inv(s) && id in s.entries
    ensures var c := s.entries[id].campaign;
            InitiateTransfer(s, id, to).Ok? <==> !s.paused && Live(c) && to != c.creator && c.pendingCreator.None?
  {
    hide Inv;
    Flags(s, id);
  }

  lemma AcceptIff(s: State, id: nat)
    requires Inv(s) && id in s.entries
    ensures var c := s.entries[id].campaign;
            AcceptTransfer(s, id).Ok? <==> !s.paused && Live(c) && c.pendingCreator.Some? && c.pendingCreator.value != SELF
  {
    hide Inv, Filed, Unfiled, Locatable, Handed;
    Flags(s, id);
    PendingIsOther(s, id);
  }

  /** The index knows where the campaign is filed, and nobody is offered their own campaign. */
  lemma PendingIsOther(s: State, id: nat)
    requires Inv(s) && id in s.entries
    ensures Locatable(s.index, s.entries[id].campaign.creator, id)
    ensures s.entries[id].campaign.pendingCreator != Some(s.entries[id].campaign.creator)
  {
    hide Inv, IndexInv, Locatable;
    IndexOf(s);
    IndexProofs.Located(s, id);
    GovernanceProofs.EditFrom(s, id);
  }

  lemma IndexOf(s: State)
    requires Inv(s)
    ensures IndexInv(s) && IdsInv(s)
  {
    hide EntriesInv, CountersInv, BankInv, IndexInv, ValidConfig, GlobalShares;
  }

  lemma PersonalCapIff(s: State, id: nat, who: Address, cap: int)
    requires id in s.entries
    ensures var e := s.entries[id];
            SetPersonalCap(s, id, who, cap).Ok?
            <==> (&& who != SELF && 0 <= cap && Get(e.ledger.lifetime, who) <= cap && Live(e.campaign)
                  && (0 < e.campaign.maxPerUser ==> cap <= e.campaign.maxPerUser))
  {
  }

  lemma AddTagIff(s: State, id: nat, tag: string)
    requires Inv(s) && id in s.entries
    ensures AddTag(s, id, tag).Ok?
       <==> !s.paused && Live(s.entries[id].campaign) && 0 < |tag| <= 32 && |s.entries[id].tags| < 10 && tag !in s.entries[id].tags
  {
    hide Inv, Buckets.Append;
    Flags(s, id);
  }

  lemma RemoveCapIff(s: State, id: nat, who: Address)
    requires id in s.entries
    ensures RemovePersonalCap(s, id, who).Ok?
       <==> who != SELF && Live(s.entries[id].campaign) && who in s.entries[id].ledger.personalCaps
  {
  }

  lemma CancelTransferIff(s: State, id: nat)
    requires Inv(s) && id in s.entries
    ensures CancelTransfer(s, id).Ok? <==> !s.paused && s.entries[id].campaign.pendingCreator.Some?
  {
    hide Inv;
    Flags(s, id);
  }

  lemma PurgeIff(s: State, id: nat, voters: seq<Address>, finalize: bool)
    requires Inv(s) && id in s.entries
    ensures PurgeVotingState(s, id, voters, finalize).Ok?
       <==> (s.entries[id].campaign.fundsWithdrawn || s.entries[id].campaign.isCancelled) && 0 < |voters| <= 50
  {
    hide Inv, WithoutTally;
    QuorumFrom(s);
  }

  // ---- Settings -----------------------------------------------------------------------------

  lemma SettersIff(s: State, admin: Address, fee: nat, days: nat, bps: nat, category: Category)
    requires Inv(s)
    ensures UpdatePlatformFee(s, fee).Ok? <==> fee <= 1_000
    ensures SetVestingParams(s, admin, days, bps).Ok?
       <==> admin == s.config.admin && !s.paused && bps <= 10_000 && days <= 365 && (bps != 0 ==> days != 0)
    ensures SetCategoryDurationCap(s, admin, category, days).Ok? <==> admin == s.config.admin && 1 <= days <= 365
  {
    hide Inv;
    QuorumFrom(s);
  }
}
