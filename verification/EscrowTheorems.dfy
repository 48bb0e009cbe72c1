/** Escrow over whole runs: refunds against withdrawals, solvency, the global total, caps and deadlines. */
module EscrowTheorems {
  import opened Types
  import opened State
  import opened Sums
  import opened Contributions
  import opened Payouts
  import opened MilestonePayouts
  import opened RevenueSharing
  import opened Governance
  import opened Registry
  import opened Invariants
  import opened Compose
  import opened Slices
  import opened ContributionProofs
  import opened PayoutProofs
  import opened Runs
  import RevenueProofs
  import RevenueTheorems

  // ---- Refund and withdrawal exclude each other ----------------------------------------------

  /** In every reachable state a campaign that met its goal and was not cancelled still holds all it raised. */
  lemma FundedIsWhole(s: State, id: nat)
    requires Inv(s) && id in s.entries
    requires !s.entries[id].campaign.isCancelled && s.entries[id].campaign.fundingGoal <= s.entries[id].campaign.amountRaised
    ensures s.entries[id].campaign.effectiveRaised == s.entries[id].campaign.amountRaised
    ensures s.entries[id].ledger.contributions == s.entries[id].ledger.lifetime
  {
    hide Inv, LedgerInv, MilestoneInv, PaidInv, RevenueInv, VotesInv, RefundInv;
    FromInv(s, id);
    NothingRefunded(s.now, s.entries[id], AuditOf(s, id));
  }

  function RefundedTotal(c: Campaign): int { c.amountRaised - c.effectiveRaised }

  lemma RefundLeavesTrace(s: State, id: nat, who: Address)
    requires Inv(s) && ClaimRefund(s, id, who).Ok?
    ensures var s' := Next(s, DoClaimRefund(id, who));
            id in s'.entries && 0 < RefundedTotal(s'.entries[id].campaign)
  {
    hide Inv, LedgerInv, MilestoneInv, PaidInv, RevenueInv, VotesInv, RefundInv, ClaimRefund, CallPayout, CallVote,
         CallRegistry, CallSetting;
    RefundShape(s, id, who);
    FromInv(s, id);
    RaisedNonNegative(s.entries[id].campaign, s.entries[id].ledger);
    RefundedLedgerInv(s.entries[id].campaign, s.entries[id], who);
  }

  lemma WithdrawLeavesTrace(s: State, id: nat)
    requires WithdrawFunds(s, id).Ok?
    ensures var s' := Next(s, DoWithdrawFunds(id));
            id in s'.entries && s'.entries[id].campaign.fundsWithdrawn
  {
    hide WithdrawFunds, SplitOf, CallPayout, CallVote, CallRegistry, CallSetting;
    WithdrawShape(s, id);
  }

  /** No run both refunds a contributor of a campaign and withdraws its funds, in whichever order. */
  lemma RefundExcludesWithdrawal(s: State, ops: seq<Op>, i: nat, j: nat, id: nat, who: Address)
    requires Init(s) && Succeeds(s, ops, i) && ops[i] == DoClaimRefund(id, who)
    requires j < |ops| && ops[j] == DoWithdrawFunds(id)
    ensures !Succeeds(s, ops, j)
  {
    hide Inv, Next, Run, Evolves, ClaimRefund, WithdrawFunds;
    InitInv(s);
    if Succeeds(s, ops, j) {
      RunInv(s, ops[..i]);
      RunInv(s, ops[..j]);
      RefundLeavesTrace(At(s, ops, i), id, who);
      WithdrawLeavesTrace(At(s, ops, j), id);
      AtNext(s, ops, i);
      AtNext(s, ops, j);
      RunEvolves(s, ops, i + 1, |ops|);
      RunEvolves(s, ops, j + 1, |ops|);
      TracesPersist(At(s, ops, i + 1), At(s, ops, |ops|), id);
      TracesPersist(At(s, ops, j + 1), At(s, ops, |ops|), id);
      RunInv(s, ops[..|ops|]);
      WithdrawnNotRefunded(At(s, ops, |ops|), id);
    }
  }

  lemma TracesPersist(s: State, s': State, id: nat)
    requires Evolves(s, s') && id in s.entries
    ensures id in s'.entries
    ensures RefundedTotal(s.entries[id].campaign) <= RefundedTotal(s'.entries[id].campaign)
    ensures s.entries[id].campaign.fundsWithdrawn ==> s'.entries[id].campaign.fundsWithdrawn
    ensures s.entries[id].campaign.isCancelled ==> s'.entries[id].campaign.isCancelled
  {
  }

  lemma WithdrawnNotRefunded(s: State, id: nat)
    requires Inv(s) && id in s.entries
    ensures s.entries[id].campaign.fundsWithdrawn ==> RefundedTotal(s.entries[id].campaign) == 0
    ensures !(s.entries[id].campaign.fundsWithdrawn && s.entries[id].campaign.isCancelled)
  {
    FromInv(s, id);
    hide Inv, LedgerInv, MilestoneInv, PaidInv, RevenueInv, VotesInv, RefundInv;
    if s.entries[id].campaign.fundsWithdrawn {
      FundedIsWhole(s, id);
    }
  }

  /** Withdrawn and Cancelled are absorbing, a passed deadline stays put and the amount raised never shrinks. */
  lemma NothingTakenBack(s: State, ops: seq<Op>, i: nat, j: nat, id: nat)
    requires Init(s) && i <= j <= |ops| && id in At(s, ops, i).entries
    ensures id in At(s, ops, j).entries
    ensures var c, c' := At(s, ops, i).entries[id].campaign, At(s, ops, j).entries[id].campaign;
            && (PhaseOf(c) == Withdrawn ==> PhaseOf(c') == Withdrawn)
            && (PhaseOf(c) == Cancelled ==> PhaseOf(c') == Cancelled)
            && (c.deadline < At(s, ops, i).now ==> c'.deadline == c.deadline)
            && c.amountRaised <= c'.amountRaised
            && At(s, ops, i).entries[id].terms == At(s, ops, j).entries[id].terms
            && (0 < c.amountRaised ==> At(s, ops, j).entries[id].ledger.feeRecipient == At(s, ops, i).entries[id].ledger.feeRecipient)
  {
    hide Inv, Run, Next;
    InitInv(s);
    RunEvolves(s, ops, i, j);
    RunInv(s, ops[..i]);
    RunInv(s, ops[..j]);
    WithdrawnNotRefunded(At(s, ops, j), id);
    RecipientPinned(At(s, ops, i), id);
  }

  lemma RecipientPinned(s: State, id: nat)
    requires Inv(s) && id in s.entries
    ensures 0 < s.entries[id].campaign.amountRaised <==> s.entries[id].ledger.feeRecipient.Some?
  {
    hide Inv, LedgerInv, MilestoneInv, PaidInv, RevenueInv, VotesInv, RefundInv;
    FromInv(s, id);
    RaisedNonNegative(s.entries[id].campaign, s.entries[id].ledger);
  }

  // ---- Horizon and caps ---------------------------------------------------------------------

  /** Every reachable campaign runs a whole number of days, at most 365, extension included. */
  lemma Horizon(s: State, ops: seq<Op>, id: nat)
    requires Init(s) && id in Run(s, ops).entries
    ensures var e := Run(s, ops).entries[id];
            && (e.campaign.deadline - e.terms.startTime) % SECONDS_PER_DAY == 0
            && 1 <= (e.campaign.deadline - e.terms.startTime) / SECONDS_PER_DAY <= 365
  {
    hide Inv, Run, LedgerInv, MilestoneInv, PaidInv, RevenueInv, VotesInv, RefundInv;
    ReachableInv(s, ops);
    FromInv(Run(s, ops), id);
  }

  lemma ExtensionMarks(s: State, id: nat, days: nat)
    requires ExtendDeadline(s, id, days).Ok?
    ensures id in s.entries && !s.entries[id].campaign.deadlineExtended
    ensures var s' := Next(s, DoExtendDeadline(id, days)); id in s'.entries && s'.entries[id].campaign.deadlineExtended
  {
    hide DurationCap, CallEscrow, CallPayout, CallRegistry, CallSetting;
  }

  lemma ExtensionStays(s: State, s': State, id: nat)
    requires Evolves(s, s') && id in s.entries && s.entries[id].campaign.deadlineExtended
    ensures id in s'.entries && s'.entries[id].campaign.deadlineExtended
  {
  }

  /** A campaign's deadline is extended at most once in a run. */
  lemma ExtendedOnce(s: State, ops: seq<Op>, i: nat, j: nat, id: nat, days: nat, more: nat)
    requires Init(s) && i < j && j < |ops|
    requires Succeeds(s, ops, i) && ops[i] == DoExtendDeadline(id, days) && ops[j] == DoExtendDeadline(id, more)
    ensures !Succeeds(s, ops, j)
  {
    hide Inv, Next, Run, Evolves, ExtendDeadline, CallEscrow, CallPayout, CallRegistry, CallSetting;
    InitInv(s);
    ExtensionMarks(At(s, ops, i), id, days);
    AtNext(s, ops, i);
    RunEvolves(s, ops, i + 1, j);
    ExtensionStays(At(s, ops, i + 1), At(s, ops, j), id);
    if Succeeds(s, ops, j) {
      ExtensionMarks(At(s, ops, j), id, more);
    }
  }

  /** Lifetime contributions respect the per-user cap and what is held respects a personal cap, in every reachable state. */
  lemma CapsHold(s: State, ops: seq<Op>, id: nat, who: Address)
    requires Init(s) && id in Run(s, ops).entries
    ensures var e := Run(s, ops).entries[id];
            && (0 < e.campaign.maxPerUser ==> Get(e.ledger.lifetime, who) <= e.campaign.maxPerUser)
            && (who in e.ledger.personalCaps ==>
                 && Get(e.ledger.contributions, who) <= e.ledger.personalCaps[who]
                 && (0 < e.campaign.maxPerUser ==> e.ledger.personalCaps[who] <= e.campaign.maxPerUser))
  {
    hide Inv, Run;
    ReachableInv(s, ops);
    CapsFrom(Run(s, ops), id);
  }

  /** The three ledger totals of a reachable campaign are the sums and the count they stand for. */
  lemma LedgerSums(s: State, ops: seq<Op>, id: nat)
    requires Init(s) && id in Run(s, ops).entries
    ensures var e := Run(s, ops).entries[id];
            && e.campaign.effectiveRaised == Sum(e.ledger.contributions)
            && e.campaign.amountRaised == Sum(e.ledger.lifetime)
            && e.ledger.contributorCount == |set who | who in e.ledger.contributions && 0 < e.ledger.contributions[who]|
  {
    hide Inv, Run, MilestoneInv, PaidInv, RevenueInv, VotesInv, RefundInv;
    ReachableInv(s, ops);
    FromInv(Run(s, ops), id);
    var l := Run(s, ops).entries[id].ledger;
    assert (set who | who in l.contributions && 0 < l.contributions[who]) == l.contributions.Keys;
    assert |l.contributions.Keys| == |l.contributions|;
  }

  /** The contributor count is positive whenever a refund decrements it. */
  lemma RefundDecrementsExactly(s: State, id: nat, who: Address, s': State)
    requires Inv(s) && id in s.entries && ClaimRefund(s, id, who) == Ok(s')
    ensures 0 < s.entries[id].ledger.contributorCount
    ensures id in s'.entries && s'.entries[id].ledger.contributorCount == s.entries[id].ledger.contributorCount - 1
  {
    hide Inv, MilestoneInv, PaidInv, RevenueInv, VotesInv, RefundInv, ClaimRefund;
    RefundShape(s, id, who);
    FromInv(s, id);
    var l := s.entries[id].ledger;
    assert who in l.contributions.Keys;
    assert |l.contributions.Keys| == |l.contributions|;
  }

  /** There is revenue only in withdrawn campaigns, so a cancellation never meets a pool. */
  lemma CancelMeetsNoPool(s: State, id: nat)
    requires Inv(s) && id in s.entries && !s.entries[id].campaign.fundsWithdrawn
    ensures s.entries[id].revenue == Revenue(0, map[], 0, 0, 0)
  {
    hide Inv, LedgerInv, MilestoneInv, PaidInv, RevenueInv, VotesInv, RefundInv;
    FromInv(s, id);
    var e, a := s.entries[id], AuditOf(s, id);
    RevenueIdle(e.campaign, e.campaign, e.ledger, e.ledger, e.revenue, a, a);
  }

  // ---- Solvency -----------------------------------------------------------------------------

  /** A campaign without milestones holds every unrefunded contribution before withdrawal and the unreleased reserve after it. */
  lemma EscrowOfPlainCampaign(s: State, id: nat)
    requires Inv(s) && id in s.entries && s.entries[id].milestones.list == []
    ensures var e := s.entries[id];
            && HeldEscrow(e, AuditOf(s, id)) == (if e.campaign.fundsWithdrawn then Unreleased(e.reserve) else Sum(e.ledger.contributions))
            && 0 <= HeldEscrow(e, AuditOf(s, id))
            && (forall who :: Get(e.ledger.contributions, who) <= Sum(e.ledger.contributions))
  {
    hide Inv, RevenueInv, VotesInv, RefundInv, WellFormed;
    FromInv(s, id);
    var e, a := s.entries[id], AuditOf(s, id);
    hide PaidInv;
    assert e.milestones.claimed == {};
    NothingPaid(e.campaign, e.milestones, a);
    SumNonNegative(e.ledger.contributions);
    forall who
      ensures Get(e.ledger.contributions, who) <= Sum(e.ledger.contributions)
    {
      if who in e.ledger.contributions {
        SumAtLeast(e.ledger.contributions, who);
      }
    }
  }

  /**
   Milestones were not claimed before a cancellation, nor under changing fee rates, and no revenue claimant has had more
   beyond their share than the rounding dust.
   */
  ghost predicate Clean(e: Entry, a: Audit) {
    && (e.milestones.claimed != {} ==> !e.campaign.isCancelled && forall t, u | t in a.claimTerms && u in a.claimTerms :: t.1 == u.1)
    && RevenueTheorems.WithinDust(e)
  }

  lemma CleanMilestones(c: Campaign, ms: Milestones, a: Audit)
    requires PaidInv(c, ms, a) && 0 <= c.amountRaised && (ms.list != [] ==> WellFormed(ms.list))
    requires forall t, u | t in a.claimTerms && u in a.claimTerms :: t.1 == u.1
    ensures a.creatorPaid + a.feePaid <= c.amountRaised
  {
    var rate: nat := 0;
    if a.claimTerms != {} {
      var t :| t in a.claimTerms;
      rate := t.1;
    }
    assert SameRate(a, rate);
    FeeMono(c.amountRaised, c.amountRaised, rate);
    hide WellFormed;
    SlicesWithin(ms, c.amountRaised - SliceUp(c.amountRaised, rate));
    SlicesWithin(ms, SliceUp(c.amountRaised, rate));
  }

  lemma CleanRevenue(e: Entry, a: Audit)
    requires LedgerInv(e.campaign, e.ledger) && RevenueInv(e.campaign, e.ledger, e.revenue, a) && CampaignInv(e.campaign.id, e.campaign)
    requires Clean(e, a)
    ensures 0 <= HeldRevenue(e.revenue)
    ensures e.ledger.contributions != map[] ==> RevenueTheorems.RevenueReady(e, a) && 0 <= RevenueTheorems.Slack(e)
  {
    hide Due, LedgerInv, ClaimsInv, RevenueTheorems.WithinDust, RevenueTheorems.Outstanding;
    if e.ledger.contributions == map[] {
      assert e.revenue.claimed == map[];
      RevenueProofs.CreatorShareMono(e.revenue.pool, e.revenue.pool, e.campaign.revenueShare);
    } else {
      RevenueTheorems.CoversIff(e, a);
      RevenueTheorems.OutstandingNonNegative(e);
      SumNonNegative(RevenueTheorems.Outstanding(e));
    }
  }

  /** A clean campaign's books are never in the red, in escrow or in revenue. */
  lemma CleanIsSolvent(s: State, id: nat)
    requires Inv(s) && id in s.entries && Clean(s.entries[id], AuditOf(s, id))
    ensures 0 <= HeldEscrow(s.entries[id], AuditOf(s, id)) && 0 <= HeldRevenue(s.entries[id].revenue)
  {
    hide Inv, LedgerInv, PaidInv, RevenueInv, VotesInv, RefundInv, WellFormed;
    FromInv(s, id);
    var e, a := s.entries[id], AuditOf(s, id);
    CleanRevenue(e, a);
    RaisedNonNegative(e.campaign, e.ledger);
    if e.milestones.claimed == {} {
      NothingPaid(e.campaign, e.milestones, a);
    } else {
      CleanMilestones(e.campaign, e.milestones, a);
      FundedIsWhole(s, id);
    }
  }

  /** The contract's balance covers one campaign's books whenever the other campaigns in that token are clean. */
  lemma BalanceCovers(s: State, id: nat)
    requires Inv(s) && id in s.entries
    requires forall x | x in s.entries && x != id && s.entries[x].terms.token == s.entries[id].terms.token ::
               Clean(s.entries[x], AuditOf(s, x))
    ensures HeldEscrow(s.entries[id], AuditOf(s, id)) + HeldRevenue(s.entries[id].revenue)
            <= Balance(s.bank, s.entries[id].terms.token, SELF)
  {
    var token := s.entries[id].terms.token;
    var m := Holdings(s, token);
    forall x | x in m - {id}
      ensures 0 <= (m - {id})[x]
    {
      if s.entries[x].terms.token == token {
        hide Inv, Clean;
        CleanIsSolvent(s, x);
      }
    }
    SumRemove<nat>(m, id);
    SumNonNegative(m - {id});
    SurplusFrom(s, token);
  }

  lemma SurplusFrom(s: State, token: Address)
    requires Inv(s)
    ensures 0 <= Surplus(s, token)
  {
    hide EntriesInv, IdsInv, CountersInv, IndexInv, ValidConfig, GlobalShares, Surplus;
  }

  /** A refund that is due is paid: with the token's campaigns clean, the transfer cannot fall short. */
  lemma RefundNeverShort(s: State, id: nat, who: Address)
    requires Inv(s) && id in s.entries
    requires forall x | x in s.entries && s.entries[x].terms.token == s.entries[id].terms.token :: Clean(s.entries[x], AuditOf(s, x))
    ensures ClaimRefund(s, id, who) != Err(TransferFailed)
  {
    hide Inv, Clean;
    var e := s.entries[id];
    if Refundable(s.now, e.campaign) && Get(e.ledger.contributions, who) != 0 {
      BalanceCovers(s, id);
      CleanIsSolvent(s, id);
      RefundWithinEscrow(s, id, who);
    }
  }

  lemma RefundWithinEscrow(s: State, id: nat, who: Address)
    requires Inv(s) && id in s.entries && Clean(s.entries[id], AuditOf(s, id))
    requires Refundable(s.now, s.entries[id].campaign) && Get(s.entries[id].ledger.contributions, who) != 0
    ensures 0 < Get(s.entries[id].ledger.contributions, who) <= HeldEscrow(s.entries[id], AuditOf(s, id))
  {
    hide Inv, LedgerInv, PaidInv, RevenueInv, VotesInv, RefundInv, WellFormed;
    FromInv(s, id);
    var e, a := s.entries[id], AuditOf(s, id);
    RefundedLedgerInv(e.campaign, e, who);
    assert e.milestones.claimed == {};
    NothingPaid(e.campaign, e.milestones, a);
  }

  /** Nor can a withdrawal or the release of a reserve. */
  lemma WithdrawalNeverShort(s: State, id: nat)
    requires Inv(s) && id in s.entries
    requires forall x | x in s.entries && s.entries[x].terms.token == s.entries[id].terms.token :: Clean(s.entries[x], AuditOf(s, x))
    ensures WithdrawFunds(s, id) != Err(TransferFailed)
    ensures WithdrawReserve(s, id) != Err(TransferFailed)
  {
    hide Inv, Clean, SplitOf, SplitFits;
    BalanceCovers(s, id);
    CleanIsSolvent(s, id);
    var e := s.entries[id];
    if e.milestones.list == [] {
      EscrowOfPlainCampaign(s, id);
      WithdrawWithinEscrow(s, id);
    } else {
      NoReserve(s, id);
    }
  }

  lemma NoReserve(s: State, id: nat)
    requires Inv(s) && id in s.entries
    ensures s.entries[id].reserve.Some? ==> s.entries[id].milestones.list == [] && 0 < s.entries[id].reserve.value.amount
  {
    hide Inv, LedgerInv, PaidInv, RevenueInv, VotesInv, RefundInv, WellFormed, MilestoneInv;
    FromInv(s, id);
  }

  lemma WithdrawWithinEscrow(s: State, id: nat)
    requires Inv(s) && id in s.entries
    ensures var p := SplitOf(s.config, s.entries[id]);
            0 <= p.fee && 0 <= p.creator && p.fee + p.creator <= s.entries[id].campaign.effectiveRaised
    ensures s.entries[id].reserve.Some? ==> 0 < s.entries[id].reserve.value.amount
    ensures CanSign(s.entries[id].campaign.creator) && CanSign(s.entries[id].ledger.feeRecipient.GetOr(s.config.admin))
    ensures Sum(s.entries[id].ledger.contributions) == s.entries[id].campaign.effectiveRaised
  {
    NoReserve(s, id);
    SplitFrom(s, id);
    FromInv(s, id);
    hide Inv, SplitOf, RevenueInv, PaidInv, VotesInv, MilestoneInv;
    RaisedNonNegative(s.entries[id].campaign, s.entries[id].ledger);
    RateBound(s.config, s.entries[id].campaign);
    SplitAddsUp(s.config, s.entries[id]);
  }

  /** An admin cancellation leaves a campaign able to refund everyone exactly when no milestone had been claimed. */
  lemma AdminCancelCoversIff(s: State, admin: Address, id: nat, reason: string, s': State)
    requires Inv(s) && id in s.entries && AdminCancelCampaign(s, admin, id, reason) == Ok(s')
    ensures id in s'.entries
    ensures Sum(s'.entries[id].ledger.contributions) <= HeldEscrow(s'.entries[id], AuditOf(s', id))
            <==> s.entries[id].milestones.claimed == {}
  {
    hide Inv, LedgerInv, PaidInv, RevenueInv, VotesInv, RefundInv, WellFormed, CancelTotal, CancelCounters;
    FromInv(s, id);
    var e, a := s.entries[id], AuditOf(s, id);
    PaidSign(e.campaign, e.milestones, a);
    SumIs(e.campaign, e.ledger);
  }

  lemma PaidSign(c: Campaign, ms: Milestones, a: Audit)
    requires PaidInv(c, ms, a)
    ensures 0 <= a.creatorPaid && 0 <= a.feePaid
    ensures ms.claimed == {} <==> a.creatorPaid + a.feePaid == 0
  {
  }

  lemma SumIs(c: Campaign, l: Ledger)
    requires LedgerInv(c, l)
    ensures Sum(l.contributions) == c.effectiveRaised
  {
  }

  // ---- The global total ---------------------------------------------------------------------

  /** What an open or closed campaign still stands for in the platform's total. */
  function OpenShare(e: Entry, a: Audit): int { if e.campaign.isCancelled then 0 else HeldEscrow(e, a) }

  /** What a cancellation took off the total beyond the campaign's own share. */
  function OverDeduction(e: Entry, a: Audit): int {
    if e.campaign.isCancelled then a.refundedBeforeCancel + a.creatorPaid + a.feePaid else 0
  }

  function OpenShares(s: State): map<nat, int> { map id | id in s.entries :: OpenShare(s.entries[id], AuditOf(s, id)) }

  function OverDeductions(s: State): map<nat, int> { map id | id in s.entries :: OverDeduction(s.entries[id], AuditOf(s, id)) }

  lemma {:induction false} SumMinus(m: map<nat, int>, n: map<nat, int>, d: map<nat, int>)
    requires m.Keys == n.Keys == d.Keys && forall k | k in m :: d[k] == m[k] - n[k]
    ensures Sum(d) == Sum(m) - Sum(n)
    decreases |m|
  {
    if m == map[] {
      assert n == map[] && d == map[];
    } else {
      var k :| k in m;
      SumRemove(m, k);
      SumRemove(n, k);
      SumRemove(d, k);
      SumMinus(m - {k}, n - {k}, d - {k});
    }
  }

  /**
   On every run the global total is the sum over campaigns that are not cancelled of what they hold in escrow
   (unreleased reserves included), less what cancellations deducted for money already refunded or paid out.
   */
  lemma GlobalTotal(s: State, ops: seq<Op>)
    requires Init(s)
    ensures Run(s, ops).totalRaised == Sum(OpenShares(Run(s, ops))) - Sum(OverDeductions(Run(s, ops)))
  {
    hide Inv, Run, HeldEscrow;
    ReachableInv(s, ops);
    var t := Run(s, ops);
    TotalFrom(t);
    SumMinus(OpenShares(t), OverDeductions(t), GlobalShares(t));
  }

  lemma TotalFrom(s: State)
    requires Inv(s)
    ensures s.totalRaised == Sum(GlobalShares(s))
  {
    hide EntriesInv, IdsInv, CountersInv, IndexInv, ValidConfig, GlobalShares, BankInv;
  }

  /** A creator's cancellation takes exactly the campaign's share off the global total if and only if nothing had been refunded. */
  lemma CancelExactIff(s: State, id: nat, s': State)
    requires Inv(s) && id in s.entries && CancelCampaign(s, id) == Ok(s')
    ensures var e, a := s.entries[id], AuditOf(s, id);
            && s.totalRaised - s'.totalRaised == OpenShare(e, a) + RefundedTotal(e.campaign)
            && (s.totalRaised - s'.totalRaised == OpenShare(e, a) <==> e.campaign.effectiveRaised == e.campaign.amountRaised)
    ensures id in s'.entries && OverDeduction(s'.entries[id], AuditOf(s', id)) == RefundedTotal(s.entries[id].campaign)
  {
    hide Inv, LedgerInv, PaidInv, RevenueInv, VotesInv, WellFormed, CancelCounters, Transfer;
    FromInv(s, id);
    var e, a := s.entries[id], AuditOf(s, id);
    assert e.milestones.claimed == {};
    NothingPaid(e.campaign, e.milestones, a);
    RaisedNonNegative(e.campaign, e.ledger);
  }

  /** An admin's does if and only if nothing had been refunded and no milestone claimed. */
  lemma AdminCancelExactIff(s: State, admin: Address, id: nat, reason: string, s': State)
    requires Inv(s) && id in s.entries && AdminCancelCampaign(s, admin, id, reason) == Ok(s')
    ensures var e, a := s.entries[id], AuditOf(s, id);
            && s.totalRaised - s'.totalRaised == OpenShare(e, a) + RefundedTotal(e.campaign) + a.creatorPaid + a.feePaid
            && (s.totalRaised - s'.totalRaised == OpenShare(e, a)
                <==> e.campaign.effectiveRaised == e.campaign.amountRaised && e.milestones.claimed == {})
    ensures id in s'.entries
    ensures OverDeduction(s'.entries[id], AuditOf(s', id)) == 0
       <==> s.entries[id].campaign.effectiveRaised == s.entries[id].campaign.amountRaised && s.entries[id].milestones.claimed == {}
  {
    hide Inv, LedgerInv, PaidInv, RevenueInv, VotesInv, WellFormed, CancelCounters;
    FromInv(s, id);
    var e, a := s.entries[id], AuditOf(s, id);
    PaidSign(e.campaign, e.milestones, a);
    RaisedNonNegative(e.campaign, e.ledger);
  }
}
