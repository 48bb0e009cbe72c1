/** The three milestone calls keep the invariant. */
module MilestoneSound {
  import opened Types
  import opened State
  import opened Contributions
  import opened Payouts
  import opened Governance
  import opened MilestonePayouts
  import opened Invariants
  import opened Compose
  import opened Slices
  import opened MilestoneProofs
  import opened ContributionProofs
  import opened PayoutProofs

  // ---- Lists that differ in descriptions and verification marks only ------------------------

  predicate SameShares(xs: seq<Milestone>, ys: seq<Milestone>) {
    && |xs| == |ys|
    && forall i | 0 <= i < |xs| ::
         xs[i].id == ys[i].id && xs[i].payoutBps == ys[i].payoutBps && xs[i].description == ys[i].description
  }

  lemma {:induction false} SameSlices(xs: seq<Milestone>, ys: seq<Milestone>, claimed: set<nat>, x: int)
    requires SameShares(xs, ys)
    ensures ClaimedSlices(xs, claimed, x) == ClaimedSlices(ys, claimed, x)
    ensures TotalBps(xs) == TotalBps(ys)
    decreases |xs|
  {
    if xs != [] {
      SameSlices(xs[..|xs| - 1], ys[..|ys| - 1], claimed, x);
    }
  }

  lemma {:induction false} SlicesNone(list: seq<Milestone>, x: int)
    ensures ClaimedSlices(list, {}, x) == 0
    decreases |list|
  {
    if list != [] {
      SlicesNone(list[..|list| - 1], x);
    }
  }

  lemma SameReleased(ms: Milestones, ms': Milestones, x: int)
    requires SameShares(ms.list, ms'.list) && ms'.claimed == ms.claimed
    ensures Released(ms', x) == Released(ms, x) && (Completed(ms') <==> Completed(ms))
  {
    SameSlices(ms.list, ms'.list, ms.claimed, x);
  }

  lemma RelistedInv(c: Campaign, ms: Milestones, ms': Milestones, a: Audit)
    requires MilestoneInv(c, ms) && PaidInv(c, ms, a)
    requires SameShares(ms.list, ms'.list) && ms'.claimed == ms.claimed
    ensures MilestoneInv(c, ms') && PaidInv(c, ms', a)
  {
    hide Released, Completed;
    SameSlices(ms.list, ms'.list, {}, 0);
    forall x
      ensures Released(ms', x) == Released(ms, x) && (Completed(ms') <==> Completed(ms))
    {
      SameReleased(ms, ms', x);
    }
    forall x | x in ms'.claimed
      ensures exists i | 0 <= i < |ms'.list| :: ms'.list[i].id == x
    {
      var i :| 0 <= i < |ms.list| && ms.list[i].id == x;
      assert ms'.list[i].id == x;
    }
    assert AllClaimed(ms') <==> AllClaimed(ms) by {
      assert forall i | 0 <= i < |ms.list| :: ms.list[i].id == ms'.list[i].id;
    }
  }

  function Relisted(e: Entry, list: seq<Milestone>): Entry { e.(milestones := e.milestones.(list := list)) }

  lemma RelistSound(s: State, id: nat, list: seq<Milestone>)
    requires Inv(s) && id in s.entries
    requires MilestoneInv(s.entries[id].campaign, Relisted(s.entries[id], list).milestones)
    requires PaidInv(s.entries[id].campaign, Relisted(s.entries[id], list).milestones, AuditOf(s, id))
    requires !s.entries[id].campaign.fundsWithdrawn || (list == [] <==> s.entries[id].milestones.list == [])
    ensures Sound(s, Ok(Put(s, id, Relisted(s.entries[id], list), AuditOf(s, id))))
  {
    hide Inv, Sound, CampaignInv, DurationInv, LedgerInv, RefundInv, MilestoneInv, PaidInv, RevenueInv, VotesInv,
         ValidConfig;
    FromInv(s, id);
    UpdateSound(s, id, Relisted(s.entries[id], list), AuditOf(s, id), s.counters, s.totalRaised, s.bank);
  }

  lemma MilestonesFrom(s: State, id: nat)
    requires Inv(s) && id in s.entries
    ensures MilestoneInv(s.entries[id].campaign, s.entries[id].milestones)
    ensures PaidInv(s.entries[id].campaign, s.entries[id].milestones, AuditOf(s, id))
    ensures 0 <= s.entries[id].campaign.amountRaised
  {
    hide Inv, CampaignInv, DurationInv, LedgerInv, RefundInv, MilestoneInv, PaidInv, RevenueInv, VotesInv;
    FromInv(s, id);
    RaisedNonNegative(s.entries[id].campaign, s.entries[id].ledger);
  }

  /** A fresh list of milestones starts unclaimed, so nothing has been paid for it. */
  lemma FreshList(c: Campaign, ms: Milestones, list: seq<Milestone>, a: Audit)
    requires MilestoneInv(c, ms) && PaidInv(c, ms, a) && ms.list == [] && !c.fundsWithdrawn && 0 <= c.amountRaised
    requires 0 < |list| <= MAX_MILESTONES && WellFormed(list)
    ensures MilestoneInv(c, ms.(list := Normalized(list))) && PaidInv(c, ms.(list := Normalized(list)), a)
  {
    var ms' := ms.(list := Normalized(list));
    assert ms.claimed == {};
    SameSlices(list, Normalized(list), {}, 0);
    assert ms'.list[0].id !in ms'.claimed;
    assert !AllClaimed(ms');
    forall x
      ensures Released(ms', x) == 0
    {
      SlicesNone(ms'.list, x);
    }
  }

  lemma SetMilestonesSound(s: State, id: nat, list: seq<Milestone>)
    requires Inv(s)
    ensures Sound(s, SetMilestones(s, id, list))
  {
    hide Inv, Sound, WellFormed, MilestoneInv, PaidInv;
    var r := SetMilestones(s, id, list);
    if r.Err? {
      NothingSound(s, r.error);
    } else {
      MilestonesFrom(s, id);
      FreshList(s.entries[id].campaign, s.entries[id].milestones, list, AuditOf(s, id));
      RelistSound(s, id, Normalized(list));
    }
  }

  lemma VerifyMilestoneSound(s: State, admin: Address, id: nat, mid: nat)
    requires Inv(s)
    ensures Sound(s, VerifyMilestone(s, admin, id, mid))
  {
    hide Inv, Sound, MilestoneInv, PaidInv;
    var r := VerifyMilestone(s, admin, id, mid);
    if r.Err? {
      NothingSound(s, r.error);
    } else {
      MilestonesFrom(s, id);
      var ms := s.entries[id].milestones;
      RelistedInv(s.entries[id].campaign, ms, ms.(list := MarkVerified(ms.list, mid)), AuditOf(s, id));
      RelistSound(s, id, MarkVerified(ms.list, mid));
    }
  }

  // ---- claim_milestone ----------------------------------------------------------------------

  lemma ClaimedMilestoneInv(c: Campaign, ms: Milestones, k: nat)
    requires MilestoneInv(c, ms) && k < |ms.list| && ms.list[k].id !in ms.claimed
    requires !c.fundsWithdrawn && c.fundingGoal <= c.amountRaised
    ensures var c' := if AllOthersClaimed(ms, ms.list[k].id) then Closed(c) else c;
            MilestoneInv(c', After(ms, ms.list[k].id))
  {
    hide IsLast;
    LastIffOthersClaimed(ms, k);
    var ms' := After(ms, ms.list[k].id);
    forall x | x in ms'.claimed
      ensures exists i | 0 <= i < |ms'.list| :: ms'.list[i].id == x
    {
      if x == ms.list[k].id {
        assert ms'.list[k].id == x;
      }
    }
  }

  lemma ClaimedEntryInv(now: nat, id: nat, e: Entry, a: Audit, k: nat, rate: nat)
    requires EntryInv(now, id, e, a) && k < |e.milestones.list| && e.milestones.list[k].id !in e.milestones.claimed
    requires !e.campaign.isCancelled && !e.campaign.fundsWithdrawn
    requires e.campaign.fundingGoal <= e.campaign.amountRaised && rate <= PLATFORM_FEE_MAX_BPS
    requires 0 < PayoutOf(e.milestones, e.milestones.list[k], e.campaign.amountRaised - SliceUp(e.campaign.amountRaised, rate))
    ensures var m, ms, raised := e.milestones.list[k], e.milestones, e.campaign.amountRaised;
            var fee := SliceUp(raised, rate);
            var a' := ClaimAudit(a, raised, rate, PayoutOf(ms, m, raised - fee), FeePayoutOf(ms, m, fee));
            EntryInv(now, id, ClaimedEntry(e, m.id), a')
    ensures EntryEvolves(now, e, ClaimedEntry(e, e.milestones.list[k].id))
  {
    hide PaidInv, LedgerInv, RevenueInv, VotesInv, RefundInv, WellFormed, PayoutOf, FeePayoutOf, CampaignInv, DurationInv,
         EntryEvolves, AllOthersClaimed, MilestoneInv;
    var m, ms, raised := e.milestones.list[k], e.milestones, e.campaign.amountRaised;
    var fee := SliceUp(raised, rate);
    var a' := ClaimAudit(a, raised, rate, PayoutOf(ms, m, raised - fee), FeePayoutOf(ms, m, fee));
    var e' := ClaimedEntry(e, m.id);
    RaisedNonNegative(e.campaign, e.ledger);
    ListFormed(e.campaign, ms, k);
    PaidClaim(e.campaign, ms, a, k, rate);
    PaidKept(e.campaign, e'.campaign, After(ms, m.id), a', a');
    ClaimedMilestoneInv(e.campaign, ms, k);
    ClaimedFlags(now, id, e, m.id);
    ClaimedRefunds(now, e, a, a', m.id);
    RevenueIdle(e.campaign, e'.campaign, e.ledger, e'.ledger, e.revenue, a, a');
    VotesKept(e.campaign, e'.campaign, e.votes, a, a');
  }

  lemma ListFormed(c: Campaign, ms: Milestones, k: nat)
    requires MilestoneInv(c, ms) && k < |ms.list|
    ensures WellFormed(ms.list)
  {
  }

  lemma ClaimedFlags(now: nat, id: nat, e: Entry, mid: nat)
    requires CampaignInv(id, e.campaign) && DurationInv(now, e.campaign, e.terms)
    requires !e.campaign.isCancelled && !e.campaign.fundsWithdrawn && e.campaign.fundingGoal <= e.campaign.amountRaised
    ensures CampaignInv(id, ClaimedEntry(e, mid).campaign) && DurationInv(now, ClaimedEntry(e, mid).campaign, e.terms)
    ensures EntryEvolves(now, e, ClaimedEntry(e, mid))
    ensures IsOpen(e.campaign)
  {
  }

  lemma ClaimedRefunds(now: nat, e: Entry, a: Audit, a': Audit, mid: nat)
    requires LedgerInv(e.campaign, e.ledger) && RefundInv(now, e.campaign, e.ledger, a) && !e.campaign.isCancelled
    requires a'.refundedBeforeCancel == a.refundedBeforeCancel
    ensures LedgerInv(ClaimedEntry(e, mid).campaign, e.ledger)
    ensures RefundInv(now, ClaimedEntry(e, mid).campaign, e.ledger, a')
  {
  }

  lemma ClaimMoves(e: Entry, a: Audit, mid: nat, raised: int, rate: nat, pay: int, fee: int, admin: Address,
                   b: Bank, b1: Bank, b2: Bank)
    requires !e.campaign.isCancelled && !e.campaign.fundsWithdrawn && e.milestones.list != [] && 0 <= fee
    requires forall k | k in b :: 0 <= b[k]
    requires CanSign(admin) && CanSign(e.campaign.creator)
    requires PayFee(b, e.terms.token, admin, fee) == Ok(b1)
    requires Transfer(b1, e.terms.token, SELF, e.campaign.creator, pay) == Ok(b2)
    ensures var a' := ClaimAudit(a, raised, rate, pay, fee);
            && GlobalShare(ClaimedEntry(e, mid), a') == GlobalShare(e, a) - (fee + pay)
            && BankMoves(b, b2, e, ClaimedEntry(e, mid), a, a')
  {
    hide Transfer, AllOthersClaimed;
    if 0 < fee {
      TransferMoves(b, e.terms.token, SELF, admin, fee);
    }
    TransferMoves(b1, e.terms.token, SELF, e.campaign.creator, pay);
    var e', a' := ClaimedEntry(e, mid), ClaimAudit(a, raised, rate, pay, fee);
    assert HeldEscrow(e', a') == HeldEscrow(e, a) - (fee + pay);
    forall t: Address
      ensures Balance(b2, t, SELF) - Balance(b, t, SELF) == HeldIn(e', a', t) - HeldIn(e, a, t)
    {
    }
  }

  function ClaimCounters(k: Counters, last: bool): Counters {
    if last then k.(active := Decrement(k.active)) else k
  }

  lemma ClaimShape(s: State, id: nat, mid: nat)
    requires ClaimMilestone(s, id, mid).Ok?
    ensures id in s.entries && Find(s.entries[id].milestones.list, mid).Some?
    ensures var e, a, rate := s.entries[id], AuditOf(s, id), FeeRate(s.config, s.entries[id].campaign);
            var c, ms, m := e.campaign, e.milestones, Find(e.milestones.list, mid).value;
            var fee := SliceUp(c.amountRaised, rate);
            var pay, feePay := PayoutOf(ms, m, c.amountRaised - fee), FeePayoutOf(ms, m, fee);
            var paid := PayFee(s.bank, e.terms.token, s.config.admin, feePay);
            && !c.isCancelled && !c.fundsWithdrawn && c.fundingGoal <= c.amountRaised && mid !in ms.claimed
            && c.isVerified && m.verified && 0 < pay
            && paid.Ok?
            && var paid2 := Transfer(paid.value, e.terms.token, SELF, c.creator, pay);
               && paid2.Ok?
               && ClaimMilestone(s, id, mid) ==
                  Ok(Updated(s, id, ClaimedEntry(e, mid), ClaimAudit(a, c.amountRaised, rate, pay, feePay),
                             ClaimCounters(s.counters, AllOthersClaimed(ms, mid)), s.totalRaised - (feePay + pay), paid2.value))
  {
    hide Transfer, PayoutOf, FeePayoutOf, MilestonePayouts.ClaimFits, AllOthersClaimed, Find, SliceUp, ClaimedEntry;
  }

  lemma ClaimMilestoneSound(s: State, id: nat, mid: nat)
    requires Inv(s)
    ensures Sound(s, ClaimMilestone(s, id, mid))
  {
    hide Inv, Sound, EntryInv, EntryEvolves, ClaimMilestone, Transfer, PayFee, GlobalShare, BankMoves, PayoutOf, FeePayoutOf,
         AllOthersClaimed, Find, SliceUp, FeeRate, WellFormed, MilestoneInv, PaidInv, ClaimAudit, ClaimCounters;
    var r := ClaimMilestone(s, id, mid);
    if r.Err? {
      NothingSound(s, r.error);
    } else {
      ClaimShape(s, id, mid);
      FromInv(s, id);
      MilestonesFrom(s, id);
      var e, a, rate := s.entries[id], AuditOf(s, id), FeeRate(s.config, s.entries[id].campaign);
      var ms, m, raised := e.milestones, Find(e.milestones.list, mid).value, e.campaign.amountRaised;
      var k := FindFinds(ms.list, mid);
      var fee := SliceUp(raised, rate);
      var pay, feePay := PayoutOf(ms, m, raised - fee), FeePayoutOf(ms, m, fee);
      RateFrom(s, id);
      ClaimedEntryInv(s.now, id, e, a, k, rate);
      ListFormed(e.campaign, ms, k);
      FeeMono(raised, raised, rate);
      ClaimReleases(ms, k, fee);
      var b1 := PayFee(s.bank, e.terms.token, s.config.admin, feePay).value;
      ClaimMoves(e, a, mid, raised, rate, pay, feePay, s.config.admin, s.bank, b1, r.value.bank);
      ClaimCounts(s, id, mid);
      UpdateSound(s, id, ClaimedEntry(e, mid), ClaimAudit(a, raised, rate, pay, feePay),
                  ClaimCounters(s.counters, AllOthersClaimed(ms, mid)), s.totalRaised - (feePay + pay), r.value.bank);
    }
  }

  lemma RateFrom(s: State, id: nat)
    requires Inv(s) && id in s.entries
    ensures FeeRate(s.config, s.entries[id].campaign) <= PLATFORM_FEE_MAX_BPS
    ensures CanSign(s.config.admin) && CanSign(s.entries[id].campaign.creator)
    ensures s.entries[id].campaign.isActive <==> !s.entries[id].campaign.isCancelled && !s.entries[id].campaign.fundsWithdrawn
  {
    hide Inv, LedgerInv, RefundInv, MilestoneInv, PaidInv, RevenueInv, VotesInv;
    FromInv(s, id);
  }

  lemma ClaimCounts(s: State, id: nat, mid: nat)
    requires Inv(s) && id in s.entries
    requires !s.entries[id].campaign.isCancelled && !s.entries[id].campaign.fundsWithdrawn
    ensures var last := AllOthersClaimed(s.entries[id].milestones, mid);
            && CountersMove(s.counters, ClaimCounters(s.counters, last), s.entries[id].campaign, ClaimedEntry(s.entries[id], mid).campaign)
            && ClaimCounters(s.counters, last).campaigns == s.counters.campaigns
  {
    hide Inv, AllOthersClaimed;
    CountedActive(s, id);
    RateFrom(s, id);
  }
}
