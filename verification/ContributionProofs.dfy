/** Contributions and refunds keep the ledger, and money that has started to come back rules out withdrawal. */
module ContributionProofs {
  import opened Types
  import opened State
  import opened Sums
  import opened Contributions
  import opened Invariants
  import opened Compose
  import opened MilestoneProofs

  /** While contributions are possible nobody has been refunded, so what is held is what was ever given. */
  lemma NothingRefunded(now: nat, e: Entry, a: Audit)
    requires LedgerInv(e.campaign, e.ledger) && RefundInv(now, e.campaign, e.ledger, a)
    requires !Refundable(now, e.campaign)
    ensures e.ledger.contributions == e.ledger.lifetime
    ensures e.campaign.effectiveRaised == e.campaign.amountRaised
  {
  }

  lemma RaisedNonNegative(c: Campaign, l: Ledger)
    requires LedgerInv(c, l)
    ensures l.feeRecipient.Some? <==> 0 < c.amountRaised
    ensures l.feeRecipient.Some? ==> CanSign(l.feeRecipient.value)
    ensures 0 <= c.effectiveRaised <= c.amountRaised
  {
    SumNonNegative(l.contributions);
    SumMono(l.contributions, l.lifetime);
  }

  lemma AccountedLedgerInv(c: Campaign, l: Ledger, admin: Address, who: Address, amount: int, burst: (nat, nat))
    requires LedgerInv(c, l) && l.contributions == l.lifetime
    requires 0 < amount && CanSign(who) && CanSign(admin)
    requires CheckCaps(c, Get(l.lifetime, who), amount).Pass?
    requires CheckPersonalCap(l, who, amount).Pass?
    ensures var l' := AccountedLedger(l, c.amountRaised == 0, admin, who, amount, burst);
            LedgerInv(AccountedCampaign(c, amount), l') && l'.contributions == l'.lifetime
  {
    SumPut(l.contributions, who, Get(l.contributions, who) + amount);
    SumPut(l.lifetime, who, Get(l.lifetime, who) + amount);
    SumNonNegative(l.lifetime);
  }

  /** Before withdrawal there is no revenue, so the ledger may still move. */
  lemma RevenueIdle(c: Campaign, c': Campaign, l: Ledger, l': Ledger, r: Revenue, a: Audit, a': Audit)
    requires RevenueInv(c, l, r, a) && !c.fundsWithdrawn
    requires a'.claimPool == a.claimPool && a'.sweeper == a.sweeper
    ensures r == Revenue(0, map[], 0, 0, 0)
    ensures RevenueInv(c', l', r, a')
  {
    assert r.pool == 0 && r.claimed == map[];
    assert 0 * (BPS - c.revenueShare) == 0;
    assert 0 * (BPS - c'.revenueShare) == 0;
    assert a.claimPool.Keys == {};
  }

  /** The campaign-level part of `contribute`. */
  lemma AccountedInv(now: nat, id: nat, e: Entry, a: Audit, admin: Address, who: Address, amount: int, burst: (nat, nat))
    requires EntryInv(now, id, e, a)
    requires IsOpen(e.campaign) && now <= e.campaign.deadline
    requires 0 < amount && CanSign(who) && CanSign(admin)
    requires CheckCaps(e.campaign, Get(e.ledger.lifetime, who), amount).Pass?
    requires CheckPersonalCap(e.ledger, who, amount).Pass?
    requires FitsI128(e.campaign.amountRaised + amount)
    ensures EntryInv(now, id, Accounted(e, admin, who, amount, burst), a)
    ensures EntryEvolves(now, e, Accounted(e, admin, who, amount, burst))
  {
    hide PaidInv, LedgerInv, RevenueInv, VotesInv, MilestoneInv, CheckCaps, CheckPersonalCap, AccountedLedger, EntryEvolves;
    var e' := Accounted(e, admin, who, amount, burst);
    NothingRefunded(now, e, a);
    AccountedLedgerInv(e.campaign, e.ledger, admin, who, amount, burst);
    RaisedNonNegative(e.campaign, e.ledger);
    NotCompletedWhileOpen(e);
    PaidGrowth(e.campaign, e'.campaign, e.milestones, a);
    RevenueIdle(e.campaign, e'.campaign, e.ledger, e'.ledger, e.revenue, a, a);
    VotesKept(e.campaign, e'.campaign, e.votes, a, a);
    MilestonesKept(e.campaign, e'.campaign, e.milestones);
    AccountedEvolves(now, e, admin, who, amount, burst);
  }

  lemma NotCompletedWhileOpen(e: Entry)
    requires MilestoneInv(e.campaign, e.milestones) && !e.campaign.fundsWithdrawn
    ensures !Completed(e.milestones)
  {
  }

  lemma AccountedEvolves(now: nat, e: Entry, admin: Address, who: Address, amount: int, burst: (nat, nat))
    requires 0 < amount && 0 <= e.campaign.amountRaised
    requires e.ledger.feeRecipient.Some? <==> 0 < e.campaign.amountRaised
    ensures EntryEvolves(now, e, Accounted(e, admin, who, amount, burst))
  {
  }

  /** What a contribution adds to the campaign's books. */
  lemma ContributeMoves(e: Entry, a: Audit, admin: Address, who: Address, amount: int, burst: (nat, nat), b: Bank, b': Bank)
    requires IsOpen(e.campaign) && !e.campaign.fundsWithdrawn
    requires forall k | k in b :: 0 <= b[k]
    requires CanSign(who) && Transfer(b, e.terms.token, who, SELF, amount) == Ok(b')
    ensures var e' := Accounted(e, admin, who, amount, burst);
            GlobalShare(e', a) == GlobalShare(e, a) + amount && BankMoves(b, b', e, e', a, a)
  {
    hide Transfer;
    TransferMoves(b, e.terms.token, who, SELF, amount);
  }

  /** What a contribution that passes its checks satisfies, whatever order they are made in. */
  predicate Admitted(s: State, who: Address, id: nat, amount: int, burst: (nat, nat)) {
    && 0 < amount && id in s.entries
    && var e := s.entries[id];
       && e.campaign.isVerified && !e.campaign.isCancelled && e.campaign.isActive
       && who != e.campaign.creator && s.now <= e.campaign.deadline
       && (0 < s.config.maxPerTransaction ==> amount <= s.config.maxPerTransaction)
       && (0 < e.campaign.maxPerUser ==> Get(e.ledger.lifetime, who) + amount <= e.campaign.maxPerUser)
       && (who in e.ledger.personalCaps ==> Get(e.ledger.contributions, who) + amount <= e.ledger.personalCaps[who])
       && amount <= 2 * e.campaign.fundingGoal
       && (2 * e.campaign.amountRaised <= e.campaign.fundingGoal ==> burst == (e.ledger.burstLedger, e.ledger.burstCount))
       && (e.campaign.fundingGoal < 2 * e.campaign.amountRaised ==> burst.0 == s.ledgerSeq && 1 <= burst.1 <= AUTO_PAUSE_BURST)
  }

  lemma ItemAdmitted(s: State, who: Address, id: nat, amount: int)
    ensures CheckItem(s, who, id, amount).Ok? ==> Admitted(s, who, id, amount, CheckItem(s, who, id, amount).value)
  {
  }

  lemma ItemShape(s: State, who: Address, id: nat, amount: int)
    requires ContributeItem(s, who, id, amount).Ok?
    ensures id in s.entries && 0 < amount
    ensures var e := s.entries[id];
            && IsOpen(e.campaign) && s.now <= e.campaign.deadline
            && CheckCaps(e.campaign, Get(e.ledger.lifetime, who), amount).Pass?
            && CheckPersonalCap(e.ledger, who, amount).Pass?
            && BurstGuard(e.campaign, e.ledger, s.ledgerSeq, amount).Ok?
            && FitsI128(e.campaign.amountRaised + amount)
            && ContributeItem(s, who, id, amount) ==
               Ok(Updated(s, id,
                          Accounted(e, s.config.admin, who, amount, BurstGuard(e.campaign, e.ledger, s.ledgerSeq, amount).value),
                          AuditOf(s, id), s.counters, s.totalRaised + amount, s.bank))
  {
    hide CheckCaps, CheckPersonalCap, BurstGuard, CheckTransactionCap;
  }

  lemma ContributeShape(s: State, id: nat, who: Address, amount: int)
    requires Contribute(s, id, who, amount).Ok?
    ensures CanSign(who) && id in s.entries
    ensures ContributeItem(s, who, id, amount).Ok?
    ensures var paid := Transfer(s.bank, s.entries[id].terms.token, who, SELF, amount);
            paid.Ok? && Contribute(s, id, who, amount) == Ok(ContributeItem(s, who, id, amount).value.(bank := paid.value))
  {
    hide CheckCaps, CheckPersonalCap, BurstGuard, CheckTransactionCap, Transfer;
  }

  lemma ContributeSound(s: State, id: nat, who: Address, amount: int)
    requires Inv(s)
    ensures Sound(s, Contribute(s, id, who, amount))
  {
    hide Inv, Sound, EntryInv, EntryEvolves, Contribute, ContributeItem, CheckCaps, CheckPersonalCap, BurstGuard, Transfer,
         GlobalShare, BankMoves;
    var r := Contribute(s, id, who, amount);
    if r.Err? {
      NothingSound(s, r.error);
    } else {
      ContributeShape(s, id, who, amount);
      ItemShape(s, who, id, amount);
      FromInv(s, id);
      var e, a := s.entries[id], AuditOf(s, id);
      var burst := BurstGuard(e.campaign, e.ledger, s.ledgerSeq, amount).value;
      AccountedInv(s.now, id, e, a, s.config.admin, who, amount, burst);
      OpenNotWithdrawn(s.now, id, e, a);
      ContributeMoves(e, a, s.config.admin, who, amount, burst, s.bank, r.value.bank);
      UpdateSound(s, id, Accounted(e, s.config.admin, who, amount, burst), a, s.counters, s.totalRaised + amount, r.value.bank);
    }
  }

  lemma OpenNotWithdrawn(now: nat, id: nat, e: Entry, a: Audit)
    requires EntryInv(now, id, e, a)
    ensures e.campaign.isActive <==> !e.campaign.isCancelled && !e.campaign.fundsWithdrawn
    ensures Refundable(now, e.campaign) ==> !e.campaign.fundsWithdrawn
    ensures CanSign(e.campaign.creator)
  {
    hide LedgerInv, MilestoneInv, PaidInv, RevenueInv, VotesInv;
  }

  // ---- Refunds ------------------------------------------------------------------------------

  lemma RefundedLedgerInv(c: Campaign, e: Entry, who: Address)
    requires c == e.campaign && LedgerInv(c, e.ledger)
    requires Get(e.ledger.contributions, who) != 0
    ensures LedgerInv(Refunded(e, who).campaign, Refunded(e, who).ledger)
    ensures 0 < Get(e.ledger.contributions, who) <= c.effectiveRaised
  {
    var l := e.ledger;
    SumRemove(l.contributions, who);
    SumNonNegative(l.contributions - {who});
    assert (l.contributions - {who}).Keys == l.contributions.Keys - {who};
    assert |l.contributions - {who}| == |(l.contributions - {who}).Keys| == |l.contributions| - 1;
  }

  lemma RefundedInv(now: nat, id: nat, e: Entry, a: Audit, who: Address)
    requires EntryInv(now, id, e, a)
    requires Refundable(now, e.campaign) && Get(e.ledger.contributions, who) != 0
    ensures var a' := RefundAudit(a, e.campaign, Get(e.ledger.contributions, who));
            EntryInv(now, id, Refunded(e, who), a') && EntryEvolves(now, e, Refunded(e, who))
    ensures Refunded(e, who).revenue == e.revenue
  {
    hide PaidInv, LedgerInv, RevenueInv, VotesInv, MilestoneInv, RefundInv, CampaignInv, DurationInv, EntryEvolves;
    var e' := Refunded(e, who);
    var a' := RefundAudit(a, e.campaign, Get(e.ledger.contributions, who));
    RefundedLedgerInv(e.campaign, e, who);
    RefundFlags(now, id, e, who);
    RevenueIdle(e.campaign, e'.campaign, e.ledger, e'.ledger, e.revenue, a, a');
    assert e.revenue.claimed - {who} == map[];
    MilestonesKept(e.campaign, e'.campaign, e.milestones);
    PaidKept(e.campaign, e'.campaign, e.milestones, a, a');
    VotesKept(e.campaign, e'.campaign, e.votes, a, a');
    RefundKeepsRefundInv(now, e, a, who);
  }

  lemma RefundFlags(now: nat, id: nat, e: Entry, who: Address)
    requires CampaignInv(id, e.campaign) && DurationInv(now, e.campaign, e.terms)
    requires Refundable(now, e.campaign) && 0 < Get(e.ledger.contributions, who)
    ensures CampaignInv(id, Refunded(e, who).campaign) && DurationInv(now, Refunded(e, who).campaign, e.terms)
    ensures EntryEvolves(now, e, Refunded(e, who))
    ensures !e.campaign.fundsWithdrawn
  {
  }

  lemma RefundKeepsRefundInv(now: nat, e: Entry, a: Audit, who: Address)
    requires RefundInv(now, e.campaign, e.ledger, a) && Refundable(now, e.campaign)
    requires 0 <= Get(e.ledger.contributions, who)
    ensures var e' := Refunded(e, who);
            RefundInv(now, e'.campaign, e'.ledger, RefundAudit(a, e.campaign, Get(e.ledger.contributions, who)))
  {
  }

  /** A refund takes the same amount off the escrow and, unless the cancellation already did, off the global total. */
  lemma RefundMoves(e: Entry, a: Audit, who: Address, b: Bank, b': Bank)
    requires !e.campaign.fundsWithdrawn && Refunded(e, who).revenue == e.revenue
    requires forall k | k in b :: 0 <= b[k]
    requires CanSign(who) && Transfer(b, e.terms.token, SELF, who, Get(e.ledger.contributions, who)) == Ok(b')
    ensures var amount := Get(e.ledger.contributions, who);
            var a' := RefundAudit(a, e.campaign, amount);
            && GlobalShare(Refunded(e, who), a') == GlobalShare(e, a) - (if e.campaign.isCancelled then 0 else amount)
            && BankMoves(b, b', e, Refunded(e, who), a, a')
  {
    hide Transfer;
    TransferMoves(b, e.terms.token, SELF, who, Get(e.ledger.contributions, who));
    var amount := Get(e.ledger.contributions, who);
    var a' := RefundAudit(a, e.campaign, amount);
    assert HeldEscrow(Refunded(e, who), a') == HeldEscrow(e, a) - amount;
    assert HeldRevenue(Refunded(e, who).revenue) == HeldRevenue(e.revenue);
    assert forall t: Address :: HeldIn(Refunded(e, who), a', t) == HeldIn(e, a, t) - if t == e.terms.token then amount else 0;
    assert GlobalShare(Refunded(e, who), a') == GlobalShare(e, a) - if e.campaign.isCancelled then 0 else amount;
    forall t: Address
      ensures Balance(b', t, SELF) - Balance(b, t, SELF) == HeldIn(Refunded(e, who), a', t) - HeldIn(e, a, t)
    {
    }
  }

  lemma RefundShape(s: State, id: nat, who: Address)
    requires ClaimRefund(s, id, who).Ok?
    ensures CanSign(who) && id in s.entries
    ensures var e, a := s.entries[id], AuditOf(s, id);
            var amount := Get(e.ledger.contributions, who);
            var paid := Transfer(s.bank, e.terms.token, SELF, who, amount);
            && Refundable(s.now, e.campaign) && amount != 0 && paid.Ok?
            && ClaimRefund(s, id, who) ==
               Ok(Updated(s, id, Refunded(e, who), RefundAudit(a, e.campaign, amount), s.counters,
                          s.totalRaised - (if e.campaign.isCancelled then 0 else amount), paid.value))
  {
    hide Transfer;
  }

  lemma ClaimRefundSound(s: State, id: nat, who: Address)
    requires Inv(s)
    ensures Sound(s, ClaimRefund(s, id, who))
  {
    hide Inv, Sound, EntryInv, EntryEvolves, ClaimRefund, Transfer, GlobalShare, BankMoves, RefundAudit, Refundable,
         Governance.ValidConfig;
    var r := ClaimRefund(s, id, who);
    if r.Err? {
      NothingSound(s, r.error);
    } else {
      RefundShape(s, id, who);
      FromInv(s, id);
      var e, a := s.entries[id], AuditOf(s, id);
      RefundedInv(s.now, id, e, a, who);
      OpenNotWithdrawn(s.now, id, e, a);
      RefundMoves(e, a, who, s.bank, r.value.bank);
      UpdateSound(s, id, Refunded(e, who), RefundAudit(a, e.campaign, Get(e.ledger.contributions, who)), s.counters,
                  r.value.totalRaised, r.value.bank);
    }
  }

  // ---- Personal caps ------------------------------------------------------------------------

  function Capped(e: Entry, caps: map<Address, int>): Entry { e.(ledger := e.ledger.(personalCaps := caps)) }

  lemma CapChangeInv(now: nat, id: nat, e: Entry, a: Audit, caps: map<Address, int>)
    requires EntryInv(now, id, e, a)
    requires CapsInv(e.campaign.maxPerUser, Capped(e, caps).ledger)
    ensures EntryInv(now, id, Capped(e, caps), a) && EntryEvolves(now, e, Capped(e, caps))
  {
    hide PaidInv, VotesInv, CampaignInv, DurationInv, MilestoneInv, RevenueInv, CapsInv;
    RevenueKept(e.campaign, e.campaign, e.ledger, Capped(e, caps).ledger, e.revenue, a, a);
  }

  lemma CapChangeSound(s: State, id: nat, caps: map<Address, int>)
    requires Inv(s) && id in s.entries
    requires CapsInv(s.entries[id].campaign.maxPerUser, Capped(s.entries[id], caps).ledger)
    ensures Sound(s, Ok(Put(s, id, Capped(s.entries[id], caps), AuditOf(s, id))))
  {
    hide Inv, Sound, EntryInv, EntryEvolves, Governance.ValidConfig, CapsInv;
    var e, a := s.entries[id], AuditOf(s, id);
    FromInv(s, id);
    CapChangeInv(s.now, id, e, a, caps);
    UpdateSound(s, id, Capped(e, caps), a, s.counters, s.totalRaised, s.bank);
  }

  lemma CapsFrom(s: State, id: nat)
    requires Inv(s) && id in s.entries
    ensures PartOfLifetime(s.entries[id].ledger)
    ensures CapsInv(s.entries[id].campaign.maxPerUser, s.entries[id].ledger)
  {
    FromInv(s, id);
  }

  lemma SetPersonalCapSound(s: State, id: nat, who: Address, amount: int)
    requires Inv(s)
    ensures Sound(s, SetPersonalCap(s, id, who, amount))
  {
    hide Inv, Sound;
    var r := SetPersonalCap(s, id, who, amount);
    if r.Err? {
      NothingSound(s, r.error);
    } else {
      CapsFrom(s, id);
      CapChangeSound(s, id, s.entries[id].ledger.personalCaps[who := amount]);
    }
  }

  lemma RemovePersonalCapSound(s: State, id: nat, who: Address)
    requires Inv(s)
    ensures Sound(s, RemovePersonalCap(s, id, who))
  {
    hide Inv, Sound;
    var r := RemovePersonalCap(s, id, who);
    if r.Err? {
      NothingSound(s, r.error);
    } else {
      CapsFrom(s, id);
      CapChangeSound(s, id, s.entries[id].ledger.personalCaps - {who});
    }
  }
}
