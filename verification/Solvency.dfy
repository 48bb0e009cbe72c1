/** Every payout the contract owes is one it can make: revenue and milestone claims beside the escrow payouts. */
module Solvency {
  import opened Types
  import opened State
  import opened Sums
  import opened Payouts
  import opened MilestonePayouts
  import opened RevenueSharing
  import opened Invariants
  import opened Compose
  import opened Slices
  import opened ContributionProofs
  import opened RevenueTheorems
  import opened EscrowTheorems
  import opened Runs
  import RevenueProofs
  import MilestoneSound

  // ---- Revenue over whole runs --------------------------------------------------------------

  lemma Ready(s: State, id: nat)
    requires Inv(s) && id in s.entries && s.entries[id].ledger.contributions != map[]
    ensures RevenueReady(s.entries[id], AuditOf(s, id))
  {
    hide Inv, LedgerInv, RevenueInv, PaidInv, VotesInv, RefundInv, MilestoneInv;
    FromInv(s, id);
  }

  /**
   In every reachable state what a contributor has had in all is their truncated share of the pool at their last
   claim, however many claims and deposits came before; only the last claimant may have had more.
   */
  lemma PathIndependentOnRuns(s: State, ops: seq<Op>, id: nat, who: Address)
    requires Init(s) && id in Run(s, ops).entries
    ensures var e, a := Run(s, ops).entries[id], AuditOf(Run(s, ops), id);
            who in e.revenue.claimed && a.sweeper != Some(who) ==>
              && who in a.claimPool && a.claimPool[who] <= e.revenue.pool
              && e.revenue.claimed[who]
                 == Due(Get(e.ledger.contributions, who), a.claimPool[who], e.campaign.revenueShare, e.campaign.effectiveRaised)
  {
    hide Inv, Run, Init, LedgerInv, PaidInv, VotesInv, RefundInv, MilestoneInv, Due;
    ReachableInv(s, ops);
    FromInv(Run(s, ops), id);
  }

  /** In every reachable state short of the last claimant, contributors and creator have had no more than the pool. */
  lemma NoOverdrawOnRuns(s: State, ops: seq<Op>, id: nat)
    requires Init(s) && id in Run(s, ops).entries && AuditOf(Run(s, ops), id).sweeper.None?
    ensures var r, share := Run(s, ops).entries[id].revenue, Run(s, ops).entries[id].campaign.revenueShare;
            && r.distributed <= ContributorShare(r.pool, share)
            && r.distributed + r.creatorClaimed <= r.pool
  {
    hide Inv, Run, Init, RevenueReady, ContributorShare;
    ReachableInv(s, ops);
    WithinShares(Run(s, ops), id);
  }

  /** On every run the claim that brings the claimants up to the contributors pays out exactly the contributors' side. */
  lemma LastClaimSweepsOnRuns(s: State, ops: seq<Op>, id: nat, who: Address)
    requires Init(s) && id in Run(s, ops).entries && LastClaimant(Run(s, ops).entries[id], who)
    requires ClaimRevenue(Run(s, ops), id, who).Ok?
    ensures var e, s' := Run(s, ops).entries[id], Next(Run(s, ops), DoClaimRevenue(id, who));
            && id in s'.entries
            && s'.entries[id].revenue.distributed == ContributorShare(e.revenue.pool, e.campaign.revenueShare)
  {
    hide Inv, Run, Init, RevenueReady, Claim, Claimable, LastClaimant, ContributorShare, Transfer, CallEscrow,
         CallVote, CallRegistry, CallSetting;
    ReachableInv(s, ops);
    HasContributed(Run(s, ops).entries[id], who);
    Ready(Run(s, ops), id);
    LastClaimantSweeps(Run(s, ops).entries[id], AuditOf(Run(s, ops), id), who);
  }

  lemma WithinShares(s: State, id: nat)
    requires Inv(s) && id in s.entries && AuditOf(s, id).sweeper.None?
    ensures var r, share := s.entries[id].revenue, s.entries[id].campaign.revenueShare;
            && r.distributed <= ContributorShare(r.pool, share)
            && 0 <= r.creatorClaimed <= CreatorShare(r.pool, share)
            && CreatorShare(r.pool, share) + ContributorShare(r.pool, share) == r.pool
  {
    hide Inv, LedgerInv, PaidInv, VotesInv, RefundInv, MilestoneInv, RevenueReady, ClaimsInv;
    FromInv(s, id);
    var e := s.entries[id];
    if e.ledger.contributions == map[] {
      assert e.revenue.claimed == map[];
      RevenueProofs.CreatorShareMono(e.revenue.pool, e.revenue.pool, e.campaign.revenueShare);
    } else {
      Ready(s, id);
      NoOverdrawBeforeSweep(e, AuditOf(s, id));
    }
  }

  // ---- Revenue claims -----------------------------------------------------------------------

  /** While held revenue covers the open claims, a claim takes nothing the creator has yet to claim. */
  lemma ClaimWithinHeld(e: Entry, a: Audit, who: Address)
    requires RevenueReady(e, a) && 0 <= Slack(e) && who in e.ledger.contributions && 0 < DueTo(e, who) - Get(e.revenue.claimed, who)
    ensures 0 < Claimable(e, who)
    ensures Claimable(e, who) <= HeldRevenue(e.revenue) - (CreatorShare(e.revenue.pool, e.campaign.revenueShare) - e.revenue.creatorClaimed)
  {
    hide Due, RevenueReady, DueTo, CreatorShare, Outstanding, LastClaimant;
    if LastClaimant(e, who) {
      LastUnclaimed(e, a, who);
      RestCoversOwn(e, a, who);
    } else {
      OutstandingNonNegative(e);
      OwnOutstanding(e, who);
      SumAtLeast(Outstanding(e), who);
    }
  }

  lemma LastUnclaimed(e: Entry, a: Audit, who: Address)
    requires RevenueReady(e, a) && LastClaimant(e, who) && who in e.ledger.contributions
    ensures who !in e.revenue.claimed && Get(e.revenue.claimed, who) == 0 && a.sweeper.None?
  {
    hide LedgerInv, ClaimsInv;
  }

  lemma OwnOutstanding(e: Entry, who: Address)
    requires who in e.ledger.contributions && 0 < DueTo(e, who) - Get(e.revenue.claimed, who)
    ensures who in Outstanding(e) && Outstanding(e)[who] == DueTo(e, who) - Get(e.revenue.claimed, who)
  {
    hide DueTo;
  }

  ghost predicate CleanToken(s: State, token: Address) {
    forall x | x in s.entries && s.entries[x].terms.token == token :: Clean(s.entries[x], AuditOf(s, x))
  }

  /** While the token's campaigns are clean every revenue claim is paid: contributors', at any time, and the creator's. */
  lemma RevenueNeverShort(s: State, id: nat, who: Address)
    requires Inv(s) && id in s.entries && CleanToken(s, s.entries[id].terms.token)
    ensures ClaimRevenue(s, id, who) != Err(TransferFailed)
    ensures ClaimCreatorRevenue(s, id) != Err(TransferFailed)
  {
    hide Inv, Claim, Clean, CreatorClaim, Claimable, HeldRevenue, HeldEscrow;
    var e := s.entries[id];
    BalanceCovers(s, id);
    CleanIsSolvent(s, id);
    ClaimErrors(e, who);
    if Claim(e, who).Ok? {
      ClaimHeld(s, id, who);
    }
    if CreatorClaim(e).Ok? {
      CreatorClaimHeld(s, id);
    }
  }

  lemma ClaimErrors(e: Entry, who: Address)
    ensures Claim(e, who) != Err(TransferFailed)
    ensures CreatorClaim(e) != Err(TransferFailed)
  {
    hide DueFits, DueTo, RevenueSharing.ClaimFits, CreatorShare;
  }

  lemma CleanCovers(s: State, id: nat)
    requires Inv(s) && id in s.entries && Clean(s.entries[id], AuditOf(s, id)) && s.entries[id].ledger.contributions != map[]
    ensures RevenueReady(s.entries[id], AuditOf(s, id)) && 0 <= Slack(s.entries[id])
    ensures s.entries[id].revenue.creatorClaimed <= CreatorShare(s.entries[id].revenue.pool, s.entries[id].campaign.revenueShare)
  {
    hide Inv, LedgerInv, PaidInv, VotesInv, RefundInv, MilestoneInv, RevenueReady, ClaimsInv, Clean, Slack, CreatorShare;
    FromInv(s, id);
    CleanRevenue(s.entries[id], AuditOf(s, id));
  }

  lemma ClaimHeld(s: State, id: nat, who: Address)
    requires Inv(s) && id in s.entries && Clean(s.entries[id], AuditOf(s, id)) && Claim(s.entries[id], who).Ok?
    ensures 0 < Claimable(s.entries[id], who) <= HeldRevenue(s.entries[id].revenue)
  {
    hide Inv, Claim, Clean, RevenueReady, Claimable, CreatorShare, HeldRevenue, Slack;
    HasContributed(s.entries[id], who);
    CleanCovers(s, id);
    ClaimParts(s.entries[id], who);
    ClaimWithinHeld(s.entries[id], AuditOf(s, id), who);
  }

  lemma HasContributed(e: Entry, who: Address)
    requires Claim(e, who).Ok?
    ensures e.ledger.contributions != map[]
  {
    hide DueFits, DueTo, RevenueSharing.ClaimFits, AfterClaim;
  }

  lemma CreatorClaimHeld(s: State, id: nat)
    requires Inv(s) && id in s.entries && Clean(s.entries[id], AuditOf(s, id)) && CreatorClaim(s.entries[id]).Ok?
    ensures var r := s.entries[id].revenue;
            0 < CreatorClaim(s.entries[id]).value.revenue.creatorClaimed - r.creatorClaimed <= HeldRevenue(r)
  {
    hide Inv, CreatorShare, RevenueReady, Outstanding, Clean;
    if s.entries[id].ledger.contributions == map[] {
      NothingSwept(s, id);
      WithinShares(s, id);
    } else {
      CleanCovers(s, id);
      OutstandingNonNegative(s.entries[id]);
      SumNonNegative(Outstanding(s.entries[id]));
    }
  }

  lemma NothingSwept(s: State, id: nat)
    requires Inv(s) && id in s.entries && s.entries[id].ledger.contributions == map[]
    ensures AuditOf(s, id).sweeper.None?
  {
    hide Inv, LedgerInv, PaidInv, VotesInv, RefundInv, MilestoneInv, ClaimsInv;
    FromInv(s, id);
  }

  // ---- Deposits -----------------------------------------------------------------------------

  /** The campaign with `amount` more in its pool. */
  function Deposited(e: Entry, amount: int): Entry { e.(revenue := e.revenue.(pool := e.revenue.pool + amount)) }

  /**
   What a creator can check in the records before depositing: the deposit leaves every open claim covered if and only if
   no claimant has had more beyond their share of the larger pool than the rounding dust of the larger pool.
   Until the last claimant has been served that is so of any deposit.
   */
  lemma DepositCoversIff(s: State, id: nat, amount: int, s': State)
    requires Inv(s) && id in s.entries && DepositRevenue(s, id, amount) == Ok(s')
    ensures id in s'.entries
    ensures 0 <= Slack(s'.entries[id]) <==> WithinDust(Deposited(s.entries[id], amount))
    ensures AuditOf(s, id).sweeper.None? ==> 0 <= Slack(s'.entries[id])
  {
    hide Inv, RevenueReady, Slack, WithinDust, DepositRevenue, Transfer;
    RevenueProofs.DepositRevenueSound(s, id, amount);
    DepositShape(s, id, amount, s');
    DepositKeepsInv(s, id, amount, s');
    DepositorsExist(s, id);
    Ready(s', id);
    CoversIff(s'.entries[id], AuditOf(s', id));
  }

  lemma DepositShape(s: State, id: nat, amount: int, s': State)
    requires DepositRevenue(s, id, amount) == Ok(s')
    ensures id in s.entries && id in s'.entries
    ensures s'.entries[id] == Deposited(s.entries[id], amount) && AuditOf(s', id) == AuditOf(s, id)
    ensures s.entries[id].campaign.fundsWithdrawn && s.entries[id].campaign.amountRaised != 0
  {
    hide Transfer;
  }

  lemma DepositKeepsInv(s: State, id: nat, amount: int, s': State)
    requires Sound(s, DepositRevenue(s, id, amount)) && DepositRevenue(s, id, amount) == Ok(s')
    ensures Inv(s')
  {
    hide Inv, DepositRevenue, Evolves, Surplus;
  }

  /** A withdrawn campaign that raised anything still has all its contributors. */
  lemma DepositorsExist(s: State, id: nat)
    requires Inv(s) && id in s.entries
    requires s.entries[id].campaign.fundsWithdrawn && s.entries[id].campaign.amountRaised != 0
    ensures s.entries[id].ledger.contributions != map[]
  {
    hide Inv, RevenueInv, PaidInv, VotesInv, MilestoneInv;
    FromInv(s, id);
    FundedIsWhole(s, id);
  }

  // ---- Milestone claims ---------------------------------------------------------------------

  lemma ClaimChecked(s: State, id: nat, mid: nat)
    requires CheckClaim(s, id, mid).Ok?
    ensures id in s.entries && Find(s.entries[id].milestones.list, mid).Some?
    ensures var c, ms, p := s.entries[id].campaign, s.entries[id].milestones, CheckClaim(s, id, mid).value;
            var m, fee := Find(ms.list, mid).value, SliceUp(c.amountRaised, p.rate);
            && p == Payout(FeeRate(s.config, c), PayoutOf(ms, m, c.amountRaised - fee), FeePayoutOf(ms, m, fee))
            && !c.isCancelled && !c.fundsWithdrawn && c.fundingGoal <= c.amountRaised && mid !in ms.claimed && 0 < p.pay
  {
    hide PayoutOf, FeePayoutOf, MilestonePayouts.ClaimFits, Find, SliceUp;
  }

  lemma CheckErrors(s: State, id: nat, mid: nat)
    ensures CheckClaim(s, id, mid) != Err(TransferFailed)
  {
    hide PayoutOf, FeePayoutOf, MilestonePayouts.ClaimFits, Find, SliceUp;
  }

  /** Under the fee rate of the earlier claims, a milestone's two payouts fit what the campaign still holds. */
  lemma ClaimWithinEscrow(s: State, id: nat, mid: nat)
    requires Inv(s) && CheckClaim(s, id, mid).Ok? && id in s.entries
    requires SameRate(AuditOf(s, id), FeeRate(s.config, s.entries[id].campaign))
    ensures var p := CheckClaim(s, id, mid).value;
            0 <= p.feePay && 0 < p.pay && p.feePay + p.pay <= HeldEscrow(s.entries[id], AuditOf(s, id))
  {
    hide Inv, CheckClaim, PayoutOf, FeePayoutOf, Find, SliceUp, FeeRate, EntryInv, EntryEvolves, SameRate, AllOthersClaimed, WellFormed,
         MilestoneInv, PaidInv;
    ClaimChecked(s, id, mid);
    FromInv(s, id);
    MilestoneSound.MilestonesFrom(s, id);
    var e, a, p := s.entries[id], AuditOf(s, id), CheckClaim(s, id, mid).value;
    var k := FindFinds(e.milestones.list, mid);
    MilestoneSound.RateFrom(s, id);
    MilestoneSound.ClaimedEntryInv(s.now, id, e, a, k, p.rate);
    var a' := ClaimAudit(a, e.campaign.amountRaised, p.rate, p.pay, p.feePay);
    PaidWithin(s.now, id, ClaimedEntry(e, mid), a', p.rate, a);
    FeeSigned(s, id, mid);
    FundedIsWhole(s, id);
  }

  lemma FeeSigned(s: State, id: nat, mid: nat)
    requires Inv(s) && CheckClaim(s, id, mid).Ok? && id in s.entries
    ensures 0 <= CheckClaim(s, id, mid).value.feePay
  {
    hide Inv, CheckClaim, PayoutOf, FeePayoutOf, Find, FeeRate, SliceUp, MilestoneInv, PaidInv;
    ClaimChecked(s, id, mid);
    MilestoneSound.MilestonesFrom(s, id);
    MilestoneSound.RateFrom(s, id);
    var c, p := s.entries[id].campaign, CheckClaim(s, id, mid).value;
    FeeMono(c.amountRaised, c.amountRaised, p.rate);
    FeePayoutSigned(s.entries[id].milestones, Find(s.entries[id].milestones.list, mid).value, SliceUp(c.amountRaised, p.rate));
  }

  lemma FeePayoutSigned(ms: Milestones, m: Milestone, fee: int)
    requires 0 <= fee
    ensures 0 <= FeePayoutOf(ms, m, fee)
  {
    hide PayoutOf;
  }

  lemma PaidWithin(now: nat, id: nat, e: Entry, a': Audit, rate: nat, a: Audit)
    requires EntryInv(now, id, e, a') && SameRate(a, rate) && a'.claimTerms == a.claimTerms + {(e.campaign.amountRaised, rate)}
    ensures a'.creatorPaid + a'.feePaid <= e.campaign.amountRaised
  {
    hide LedgerInv, RevenueInv, VotesInv, RefundInv, PaidInv, WellFormed;
    RaisedNonNegative(e.campaign, e.ledger);
    CleanMilestones(e.campaign, e.milestones, a');
  }

  /** A milestone claim is always paid while the fee rate stays what it was for the earlier claims. */
  lemma MilestoneNeverShort(s: State, id: nat, mid: nat)
    requires Inv(s) && id in s.entries && CleanToken(s, s.entries[id].terms.token)
    requires SameRate(AuditOf(s, id), FeeRate(s.config, s.entries[id].campaign))
    ensures ClaimMilestone(s, id, mid) != Err(TransferFailed)
  {
    hide Inv, CheckClaim, Clean, HeldEscrow, HeldRevenue, SameRate, FeeRate, ClaimedEntry, AllOthersClaimed;
    CheckErrors(s, id, mid);
    if CheckClaim(s, id, mid).Ok? {
      BalanceCovers(s, id);
      CleanIsSolvent(s, id);
      ClaimWithinEscrow(s, id, mid);
      MilestoneSound.RateFrom(s, id);
    }
  }
}
