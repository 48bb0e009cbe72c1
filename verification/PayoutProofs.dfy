/** Withdrawal, reserve release and cancellation pay out of the campaign's own escrow, to the last unit. */
module PayoutProofs {
  import opened Types
  import opened State
  import opened Contributions
  import opened Payouts
  import opened Governance
  import opened Invariants
  import opened Compose
  import opened Slices
  import opened ContributionProofs
  import Sums

  // ---- withdraw_funds -----------------------------------------------------------------------

  lemma RateBound(config: Config, c: Campaign)
    requires ValidConfig(config) && c.feeOverride.GetOr(0) <= PLATFORM_FEE_MAX_BPS
    ensures FeeRate(config, c) <= PLATFORM_FEE_MAX_BPS
  {
  }

  /** Fee, reserve and creator share are nonnegative and add up to the escrow; fee and reserve are the rates rounded up. */
  lemma SplitAddsUp(config: Config, e: Entry)
    requires 0 <= e.campaign.effectiveRaised && FeeRate(config, e.campaign) <= BPS && e.terms.vestingBps <= BPS
    ensures var p := SplitOf(config, e);
            var raised, rate, bps := e.campaign.effectiveRaised, FeeRate(config, e.campaign), e.terms.vestingBps;
            && 0 <= p.fee && 0 <= p.reserve && 0 <= p.creator
            && p.fee + p.reserve + p.creator == raised
            && (p.fee - 1) * BPS < raised * rate <= p.fee * BPS
            && (p.reserve - 1) * BPS < (raised - p.fee) * bps <= p.reserve * BPS
  {
    var raised, rate := e.campaign.effectiveRaised, FeeRate(config, e.campaign);
    FeeMono(raised, raised, rate);
    FeeMono(raised - SliceUp(raised, rate), raised - SliceUp(raised, rate), e.terms.vestingBps);
  }

  lemma WithdrawnInv(now: nat, id: nat, e: Entry, a: Audit, amount: int)
    requires EntryInv(now, id, e, a)
    requires e.milestones.list == [] && !e.campaign.isCancelled && !e.campaign.fundsWithdrawn
    requires e.campaign.fundingGoal <= e.campaign.amountRaised
    ensures EntryInv(now, id, WithdrawnEntry(e, now, amount), a)
    ensures EntryEvolves(now, e, WithdrawnEntry(e, now, amount))
    ensures a.creatorPaid == 0 && a.feePaid == 0 && e.reserve.None?
    ensures e.campaign.effectiveRaised == e.campaign.amountRaised
  {
    hide PaidInv, LedgerInv, RevenueInv, VotesInv, RefundInv;
    var e' := WithdrawnEntry(e, now, amount);
    NothingRefunded(now, e, a);
    WithdrawnLedger(now, e, a);
    RevenueIdle(e.campaign, e'.campaign, e.ledger, e'.ledger, e.revenue, a, a);
    assert e.milestones.claimed == {};
    NothingPaid(e.campaign, e.milestones, a);
    PaidKept(e.campaign, e'.campaign, e.milestones, a, a);
    VotesKept(e.campaign, e'.campaign, e.votes, a, a);
  }

  lemma NothingPaid(c: Campaign, ms: Milestones, a: Audit)
    requires PaidInv(c, ms, a) && ms.claimed == {}
    ensures a.creatorPaid == 0 && a.feePaid == 0 && a.claimTerms == {}
  {
  }

  lemma WithdrawnLedger(now: nat, e: Entry, a: Audit)
    requires LedgerInv(e.campaign, e.ledger) && RefundInv(now, e.campaign, e.ledger, a)
    requires !Refundable(now, e.campaign)
    ensures LedgerInv(Closed(e.campaign), e.ledger) && RefundInv(now, Closed(e.campaign), e.ledger, a)
  {
  }

  lemma WithdrawMoves(e: Entry, a: Audit, now: nat, p: Split, to: Address, b: Bank, b1: Bank, b2: Bank)
    requires !e.campaign.fundsWithdrawn && !e.campaign.isCancelled && e.milestones.list == [] && e.reserve.None?
    requires a.creatorPaid == 0 && a.feePaid == 0
    requires 0 <= p.reserve && p.fee + p.reserve + p.creator == e.campaign.effectiveRaised
    requires forall k | k in b :: 0 <= b[k]
    requires CanSign(to) && CanSign(e.campaign.creator)
    requires Transfer(b, e.terms.token, SELF, to, p.fee) == Ok(b1)
    requires Transfer(b1, e.terms.token, SELF, e.campaign.creator, p.creator) == Ok(b2)
    ensures var e' := WithdrawnEntry(e, now, p.reserve);
            && GlobalShare(e', a) == GlobalShare(e, a) - (e.campaign.effectiveRaised - p.reserve)
            && BankMoves(b, b2, e, e', a, a)
  {
    hide Transfer;
    TransferMoves(b, e.terms.token, SELF, to, p.fee);
    TransferMoves(b1, e.terms.token, SELF, e.campaign.creator, p.creator);
    var e' := WithdrawnEntry(e, now, p.reserve);
    assert HeldEscrow(e', a) == p.reserve;
    forall t: Address
      ensures Balance(b2, t, SELF) - Balance(b, t, SELF) == HeldIn(e', a, t) - HeldIn(e, a, t)
    {
    }
  }

  lemma WithdrawShape(s: State, id: nat)
    requires WithdrawFunds(s, id).Ok?
    ensures id in s.entries
    ensures var e := s.entries[id];
            var c, p := e.campaign, SplitOf(s.config, e);
            var paid := Transfer(s.bank, e.terms.token, SELF, e.ledger.feeRecipient.GetOr(s.config.admin), p.fee);
            && e.milestones.list == [] && !c.isCancelled && !c.fundsWithdrawn
            && c.amountRaised != 0 && c.fundingGoal <= c.amountRaised && c.isVerified
            && paid.Ok?
            && var paid2 := Transfer(paid.value, e.terms.token, SELF, c.creator, p.creator);
               && paid2.Ok?
               && WithdrawFunds(s, id) ==
                  Ok(Updated(s, id, WithdrawnEntry(e, s.now, p.reserve), AuditOf(s, id),
                             s.counters.(active := Decrement(s.counters.active)),
                             s.totalRaised - (c.effectiveRaised - p.reserve), paid2.value))
  {
    hide Transfer, SplitOf, SplitFits;
  }

  lemma WithdrawFundsSound(s: State, id: nat)
    requires Inv(s)
    ensures Sound(s, WithdrawFunds(s, id))
  {
    hide Inv, Sound, EntryInv, EntryEvolves, WithdrawFunds, Transfer, GlobalShare, BankMoves, SplitOf, ValidConfig;
    var r := WithdrawFunds(s, id);
    if r.Err? {
      NothingSound(s, r.error);
    } else {
      WithdrawShape(s, id);
      FromInv(s, id);
      var e, a, p := s.entries[id], AuditOf(s, id), SplitOf(s.config, s.entries[id]);
      WithdrawnInv(s.now, id, e, a, p.reserve);
      SplitFrom(s, id);
      var to := e.ledger.feeRecipient.GetOr(s.config.admin);
      WithdrawMoves(e, a, s.now, p, to, s.bank, Transfer(s.bank, e.terms.token, SELF, to, p.fee).value, r.value.bank);
      CountedActive(s, id);
      UpdateSound(s, id, WithdrawnEntry(e, s.now, p.reserve), a, s.counters.(active := Decrement(s.counters.active)),
                  r.value.totalRaised, r.value.bank);
    }
  }

  lemma SplitFrom(s: State, id: nat)
    requires Inv(s) && id in s.entries
    ensures var e, p := s.entries[id], SplitOf(s.config, s.entries[id]);
            && 0 <= p.reserve && p.fee + p.reserve + p.creator == e.campaign.effectiveRaised
            && CanSign(e.campaign.creator) && CanSign(e.ledger.feeRecipient.GetOr(s.config.admin))
            && (e.campaign.isActive <==> !e.campaign.isCancelled && !e.campaign.fundsWithdrawn)
  {
    hide Inv, PaidInv, RevenueInv, VotesInv, RefundInv, MilestoneInv, SplitOf, LedgerInv;
    FromInv(s, id);
    var e := s.entries[id];
    RaisedNonNegative(e.campaign, e.ledger);
    RateBound(s.config, e.campaign);
    SplitAddsUp(s.config, e);
  }

  // ---- withdraw_reserve ---------------------------------------------------------------------

  function ReserveReleased(e: Entry): Entry
    requires e.reserve.Some?
  {
    e.(reserve := Some(e.reserve.value.(released := true)))
  }

  lemma WithdrawReserveSound(s: State, id: nat)
    requires Inv(s)
    ensures Sound(s, WithdrawReserve(s, id))
  {
    hide Inv, Sound, EntryInv, EntryEvolves, Transfer, GlobalShare, BankMoves, ValidConfig;
    var r := WithdrawReserve(s, id);
    if r.Err? {
      NothingSound(s, r.error);
    } else {
      FromInv(s, id);
      var e, a := s.entries[id], AuditOf(s, id);
      ReleasedInv(s.now, id, e, a);
      ReleaseMoves(e, a, s.bank, r.value.bank);
      UpdateSound(s, id, ReserveReleased(e), a, s.counters, r.value.totalRaised, r.value.bank);
    }
  }

  lemma ReleasedInv(now: nat, id: nat, e: Entry, a: Audit)
    requires EntryInv(now, id, e, a) && e.reserve.Some? && e.campaign.fundsWithdrawn
    ensures EntryInv(now, id, ReserveReleased(e), a) && EntryEvolves(now, e, ReserveReleased(e))
    ensures e.milestones.list == [] && !e.campaign.isCancelled
  {
    hide PaidInv, LedgerInv, RevenueInv, VotesInv, RefundInv, MilestoneInv;
  }

  lemma ReleaseMoves(e: Entry, a: Audit, b: Bank, b': Bank)
    requires e.reserve.Some? && !e.reserve.value.released && e.campaign.fundsWithdrawn
    requires e.milestones.list == [] && !e.campaign.isCancelled
    requires forall k | k in b :: 0 <= b[k]
    requires CanSign(e.campaign.creator)
    requires Transfer(b, e.terms.token, SELF, e.campaign.creator, e.reserve.value.amount) == Ok(b')
    ensures GlobalShare(ReserveReleased(e), a) == GlobalShare(e, a) - e.reserve.value.amount
    ensures BankMoves(b, b', e, ReserveReleased(e), a, a)
  {
    hide Transfer;
    TransferMoves(b, e.terms.token, SELF, e.campaign.creator, e.reserve.value.amount);
    forall t: Address
      ensures Balance(b', t, SELF) - Balance(b, t, SELF) == HeldIn(ReserveReleased(e), a, t) - HeldIn(e, a, t)
    {
    }
  }

  // ---- Cancellation -------------------------------------------------------------------------

  lemma CancelledInv(now: nat, id: nat, e: Entry, a: Audit)
    requires EntryInv(now, id, e, a) && IsOpen(e.campaign)
    ensures EntryInv(now, id, CancelledEntry(e), a.(ballots := map[]))
    ensures EntryEvolves(now, e, CancelledEntry(e))
    ensures e.revenue.pool == 0 && !e.campaign.fundsWithdrawn
  {
    hide PaidInv, LedgerInv, RevenueInv, VotesInv, MilestoneInv, RefundInv;
    var e', a' := CancelledEntry(e), a.(ballots := map[]);
    RaisedNonNegative(e.campaign, e.ledger);
    CancelledRefunds(now, e, a);
    MilestonesKept(e.campaign, e'.campaign, e.milestones);
    PaidKept(e.campaign, e'.campaign, e.milestones, a, a');
    RevenueIdle(e.campaign, e'.campaign, e.ledger, e'.ledger, e.revenue, a, a');
    EmptyTally(e'.campaign, e.votes, a');
  }

  lemma CancelledRefunds(now: nat, e: Entry, a: Audit)
    requires LedgerInv(e.campaign, e.ledger) && RefundInv(now, e.campaign, e.ledger, a) && !e.campaign.isCancelled
    requires e.campaign.effectiveRaised <= e.campaign.amountRaised
    ensures LedgerInv(CancelledCampaign(e.campaign), e.ledger)
    ensures RefundInv(now, CancelledCampaign(e.campaign), e.ledger, a.(ballots := map[]))
  {
  }

  lemma EmptyTally(c: Campaign, v: Votes, a: Audit)
    requires a.ballots == map[]
    ensures VotesInv(c, WithoutTally(v), a)
  {
    assert Voters(a.ballots, true) == {} && Voters(a.ballots, false) == {};
  }

  /** A cancellation takes the gross amount raised off the global total, whatever has left the escrow already. */
  lemma CancelMoves(s: State, id: nat)
    requires Inv(s) && id in s.entries && IsOpen(s.entries[id].campaign)
    ensures var e, a := s.entries[id], AuditOf(s, id);
            var e', a' := CancelledEntry(e), a.(ballots := map[]);
            && GlobalShare(e', a') - GlobalShare(e, a) == CancelTotal(s, e.campaign) - s.totalRaised
            && BankMoves(s.bank, s.bank, e, e', a, a')
            && CountersMove(s.counters, CancelCounters(s.counters), e.campaign, e'.campaign)
  {
    hide Inv, PaidInv, LedgerInv, RevenueInv, VotesInv, MilestoneInv, ValidConfig;
    FromInv(s, id);
    CountedActive(s, id);
    RaisedNonNegative(s.entries[id].campaign, s.entries[id].ledger);
  }

  lemma CancelCampaignSound(s: State, id: nat)
    requires Inv(s)
    ensures Sound(s, CancelCampaign(s, id))
  {
    hide Inv, Sound, EntryInv, EntryEvolves, Transfer, GlobalShare, BankMoves, ValidConfig, CancelTotal,
         CancelCounters, CountersMove;
    var r := CancelCampaign(s, id);
    if r.Err? {
      NothingSound(s, r.error);
    } else {
      FromInv(s, id);
      var e, a := s.entries[id], AuditOf(s, id);
      CancelledInv(s.now, id, e, a);
      CancelMoves(s, id);
      CancelKeepsCount(s.counters);
      UpdateSound(s, id, CancelledEntry(e), a.(ballots := map[]), CancelCounters(s.counters), CancelTotal(s, e.campaign), s.bank);
    }
  }

  lemma CancelKeepsCount(k: Counters)
    ensures CancelCounters(k).campaigns == k.campaigns
  {
  }

  lemma AdminCancelSound(s: State, admin: Address, id: nat, reason: string)
    requires Inv(s)
    ensures Sound(s, AdminCancelCampaign(s, admin, id, reason))
  {
    hide Inv, Sound, EntryInv, EntryEvolves, GlobalShare, BankMoves, ValidConfig, CancelTotal, CancelCounters, CountersMove;
    var r := AdminCancelCampaign(s, admin, id, reason);
    if r.Err? {
      NothingSound(s, r.error);
    } else {
      FromInv(s, id);
      var e, a := s.entries[id], AuditOf(s, id);
      CancelledInv(s.now, id, e, a);
      CancelMoves(s, id);
      CancelKeepsCount(s.counters);
      UpdateSound(s, id, CancelledEntry(e), a.(ballots := map[]), CancelCounters(s.counters), CancelTotal(s, e.campaign), s.bank);
    }
  }
}
