/** Claiming a campaign's milestones one after the other, with nothing happening in between. */
module MilestoneRuns {
  import opened Types
  import opened State
  import opened MilestonePayouts
  import opened Governance
  import opened Invariants
  import opened Compose
  import opened Slices
  import opened ContributionProofs
  import opened MilestoneProofs
  import opened MilestoneOrders
  import RevenueSharing
  import RevenueTheorems
  import opened EscrowTheorems
  import opened Solvency
  import opened Runs
  import MilestoneSound

  /** The amount raised leaves room for every product and sum of the claims. */
  predicate RaisedFits(s: State, id: nat)
    requires id in s.entries
  {
    var e := s.entries[id];
    && FitsI128(e.campaign.amountRaised * BPS)
    && FitsI128(s.totalRaised) && FitsI128(s.totalRaised - HeldEscrow(e, AuditOf(s, id)))
  }

  // ---- One claim ----------------------------------------------------------------------------

  /** Ready for claims at the fee rate of the earlier ones, every token owed in this currency covered. */
  ghost predicate Claimable(s: State, id: nat) {
    && Inv(s) && GuardsPass(s, id) && RaisedFits(s, id)
    && SameRate(AuditOf(s, id), FeeRate(s.config, s.entries[id].campaign))
    && CleanToken(s, s.entries[id].terms.token)
  }

  lemma ProductsFit(x: int, y: int, bps: nat)
    requires 0 <= x <= y && bps <= BPS && FitsI128(y * BPS)
    ensures FitsI128(x * bps)
  {
    assert x * BPS == x * bps + x * (BPS - bps);
    assert y * BPS == x * BPS + (y - x) * BPS;
    assert 0 <= x * bps && 0 <= x * (BPS - bps);
  }

  lemma RateFits(raised: int, rate: nat)
    requires 0 <= raised && rate <= PLATFORM_FEE_MAX_BPS && FitsI128(raised * BPS)
    ensures FitsI128(raised * rate) && FitsI128(raised * rate + BPS_CEIL_OFFSET)
  {
    assert raised * BPS == raised * rate + raised * (BPS - rate);
    assert 0 <= raised * rate;
    assert raised * (BPS - rate) >= raised * 9000;
    if raised == 0 {
      assert raised * rate == 0;
    } else {
      assert raised * rate + raised * 9000 <= raised * BPS;
      assert raised * rate <= raised * 1000;
    }
  }

  lemma PayoutFits(ms: Milestones, k: nat, raised: int, fee: int)
    requires WellFormed(ms.list) && k < |ms.list| && 0 <= fee <= raised && FitsI128(raised * BPS)
    ensures MilestonePayouts.ClaimFits(ms, ms.list[k], raised - fee, fee)
  {
    forall i | 0 <= i < |ms.list|
      ensures FitsI128((raised - fee) * ms.list[i].payoutBps) && FitsI128(fee * ms.list[i].payoutBps)
    {
      ProductsFit(raised - fee, raised, ms.list[i].payoutBps);
      ProductsFit(fee, raised, ms.list[i].payoutBps);
    }
    ClaimedAtMostTotal(ms.list, ms.claimed);
  }

  lemma ClaimIsCovered(s: State, id: nat, mid: nat, k: nat)
    requires Claimable(s, id) && id in s.entries && k < |s.entries[id].milestones.list| && s.entries[id].milestones.list[k].id == mid
    requires mid !in s.entries[id].milestones.claimed
    ensures var c, ms := s.entries[id].campaign, s.entries[id].milestones;
            var m, fee := ms.list[k], SliceUp(c.amountRaised, FeeRate(s.config, c));
            0 < PayoutOf(ms, m, CreatorTotal(s, id)) ==>
              && 0 <= FeePayoutOf(ms, m, fee)
              && FeePayoutOf(ms, m, fee) + PayoutOf(ms, m, CreatorTotal(s, id)) <= HeldEscrow(s.entries[id], AuditOf(s, id))
  {
    hide Inv, EntryInv, EntryEvolves, SameRate, PayoutOf, FeePayoutOf, SliceUp, FeeRate, MilestoneInv, PaidInv, WellFormed,
         CleanToken, AllOthersClaimed;
    var e, a := s.entries[id], AuditOf(s, id);
    var c, ms, m, rate := e.campaign, e.milestones, e.milestones.list[k], FeeRate(s.config, e.campaign);
    var fee := SliceUp(c.amountRaised, rate);
    if 0 < PayoutOf(ms, m, CreatorTotal(s, id)) {
      FromInv(s, id);
      MilestoneSound.MilestonesFrom(s, id);
      MilestoneSound.RateFrom(s, id);
      MilestoneSound.ClaimedEntryInv(s.now, id, e, a, k, rate);
      var a' := ClaimAudit(a, c.amountRaised, rate, PayoutOf(ms, m, c.amountRaised - fee), FeePayoutOf(ms, m, fee));
      PaidWithin(s.now, id, ClaimedEntry(e, mid), a', rate, a);
      FeeMono(c.amountRaised, c.amountRaised, rate);
      FeePayoutSigned(ms, m, fee);
      FundedIsWhole(s, id);
    }
  }

  lemma EverythingFits(s: State, id: nat, mid: nat)
    requires Claimable(s, id)
    ensures ClaimFitsIn(s, id, mid)
  {
    hide Inv, SameRate, PayoutOf, FeePayoutOf, SliceUp, FeeRate, MilestoneInv, PaidInv, WellFormed, CleanToken, Find,
         MilestonePayouts.ClaimFits, HeldEscrow;
    var e := s.entries[id];
    var c, ms, rate := e.campaign, e.milestones, FeeRate(s.config, e.campaign);
    MilestoneSound.MilestonesFrom(s, id);
    MilestoneSound.RateFrom(s, id);
    RateFits(c.amountRaised, rate);
    FeeMono(c.amountRaised, c.amountRaised, rate);
    if Find(ms.list, mid).Some? && mid !in ms.claimed {
      var k := FindFinds(ms.list, mid);
      MilestoneSound.ListFormed(c, ms, k);
      PayoutFits(ms, k, c.amountRaised, SliceUp(c.amountRaised, rate));
      ClaimIsCovered(s, id, mid, k);
    }
  }

  /** The contract pays a claim exactly when the milestone is there, verified, unclaimed and its payout positive. */
  lemma ClaimSucceedsIff(s: State, id: nat, mid: nat)
    requires Claimable(s, id)
    ensures ClaimMilestone(s, id, mid).Ok? <==> ClaimNext(s.entries[id].milestones, mid, CreatorTotal(s, id)).Ok?
  {
    hide Inv, SameRate, CheckClaim, PayClaim, ClaimNext, CreatorTotal, CleanToken, RaisedFits, ClaimFitsIn, AllOthersClaimed;
    EverythingFits(s, id, mid);
    ClaimNextIsChecked(s, id, mid);
    MilestoneNeverShort(s, id, mid);
    PayErrors(s.bank, s.entries[id].terms.token, s.config.admin, s.entries[id].campaign.creator);
  }

  lemma PayErrors(b: Bank, token: Address, admin: Address, creator: Address)
    ensures forall p: Payout :: PayClaim(b, token, admin, creator, p).Err? ==> PayClaim(b, token, admin, creator, p) == Err(TransferFailed)
  {
  }

  /** What a claim that is not the last leaves: the same campaign, one more milestone claimed, ready for the next. */
  lemma ClaimLeavesClaimable(s: State, id: nat, mid: nat, s': State)
    requires Claimable(s, id) && id in s.entries && ClaimMilestone(s, id, mid) == Ok(s')
    requires !AllOthersClaimed(s.entries[id].milestones, mid)
    ensures Claimable(s', id) && id in s'.entries && s'.config == s.config
    ensures s'.entries[id].campaign == s.entries[id].campaign
    ensures s'.entries[id].milestones == After(s.entries[id].milestones, mid)
  {
    hide Inv, SameRate, CleanToken, AllOthersClaimed, ClaimMilestone, CheckClaim, RaisedFits, ClaimAudit, FeeRate;
    ClaimResult(s, id, mid, s');
    ClaimKeepsInv(s, id, mid, s');
    SameRateAfter(s, id, mid, s');
    CleanAfter(s, id, s');
    FitsAfter(s, id, mid, s');
  }

  lemma ClaimResult(s: State, id: nat, mid: nat, s': State)
    requires ClaimMilestone(s, id, mid) == Ok(s') && id in s.entries && !AllOthersClaimed(s.entries[id].milestones, mid)
    ensures CheckClaim(s, id, mid).Ok? && s.entries[id].milestones.list != []
    ensures s'.config == s.config && s'.paused == s.paused
    ensures s'.entries == s.entries[id := s.entries[id].(milestones := After(s.entries[id].milestones, mid))]
    ensures var p := CheckClaim(s, id, mid).value;
            && p.rate == FeeRate(s.config, s.entries[id].campaign)
            && s'.audits == s.audits[id := ClaimAudit(AuditOf(s, id), s.entries[id].campaign.amountRaised, p.rate, p.pay, p.feePay)]
            && s'.totalRaised == s.totalRaised - (p.feePay + p.pay)
  {
    ClaimChecked(s, id, mid);
    hide AllOthersClaimed, CheckClaim, PayClaim, ClaimAudit, FeeRate;
  }

  lemma ClaimKeepsInv(s: State, id: nat, mid: nat, s': State)
    requires Inv(s) && ClaimMilestone(s, id, mid) == Ok(s')
    ensures Inv(s')
  {
    MilestoneSound.ClaimMilestoneSound(s, id, mid);
    hide Inv, Evolves, Surplus, ClaimMilestone;
  }

  lemma SameRateAfter(s: State, id: nat, mid: nat, s': State)
    requires id in s.entries && CheckClaim(s, id, mid).Ok?
    requires SameRate(AuditOf(s, id), FeeRate(s.config, s.entries[id].campaign))
    requires var p := CheckClaim(s, id, mid).value;
             && p.rate == FeeRate(s.config, s.entries[id].campaign)
             && s'.audits == s.audits[id := ClaimAudit(AuditOf(s, id), s.entries[id].campaign.amountRaised, p.rate, p.pay, p.feePay)]
    ensures SameRate(AuditOf(s', id), FeeRate(s.config, s.entries[id].campaign))
  {
    hide CheckClaim, FeeRate;
  }

  lemma CleanAfter(s: State, id: nat, s': State)
    requires id in s.entries && id in s'.entries && CleanToken(s, s.entries[id].terms.token)
    requires s'.entries == s.entries[id := s'.entries[id]] && s'.entries[id] == s.entries[id].(milestones := s'.entries[id].milestones)
    requires id in s'.audits && s'.audits == s.audits[id := s'.audits[id]]
    requires SameRate(AuditOf(s', id), FeeRate(s.config, s.entries[id].campaign)) && !s.entries[id].campaign.isCancelled
    ensures CleanToken(s', s'.entries[id].terms.token)
  {
    hide RevenueTheorems.Excess, RevenueTheorems.Dust, FeeRate;
    WithinDustSame(s.entries[id], s'.entries[id]);
    assert Clean(s.entries[id], AuditOf(s, id));
    assert Clean(s'.entries[id], AuditOf(s', id));
    forall x | x in s'.entries && s'.entries[x].terms.token == s'.entries[id].terms.token
      ensures Clean(s'.entries[x], AuditOf(s', x))
    {
      if x != id {
        assert s'.entries[x] == s.entries[x] && AuditOf(s', x) == AuditOf(s, x);
      }
    }
  }

  lemma WithinDustSame(e: Entry, e': Entry)
    requires e' == e.(milestones := e'.milestones) && RevenueTheorems.WithinDust(e)
    ensures RevenueTheorems.WithinDust(e')
  {
    hide RevenueSharing.Due;
    assert RevenueTheorems.AllDue(e') == RevenueTheorems.AllDue(e);
    forall w | w in e'.revenue.claimed
      ensures RevenueTheorems.Excess(e', w) <= RevenueTheorems.Dust(e')
    {
      assert RevenueTheorems.Excess(e, w) <= RevenueTheorems.Dust(e);
    }
  }

  lemma FitsAfter(s: State, id: nat, mid: nat, s': State)
    requires Inv(s) && Inv(s') && GuardsPass(s, id) && RaisedFits(s, id) && CheckClaim(s, id, mid).Ok?
    requires id in s'.entries && CleanToken(s', s'.entries[id].terms.token)
    requires s'.entries[id] == s.entries[id].(milestones := s'.entries[id].milestones) && s.entries[id].milestones.list != []
    requires s'.entries[id].milestones.list != []
    requires var p, c := CheckClaim(s, id, mid).value, s.entries[id].campaign;
             && s'.audits == s.audits[id := ClaimAudit(AuditOf(s, id), c.amountRaised, p.rate, p.pay, p.feePay)]
             && s'.totalRaised == s.totalRaised - (p.feePay + p.pay)
    ensures RaisedFits(s', id)
  {
    hide Inv, CheckClaim, Clean;
    FeeSigned(s, id, mid);
    ClaimChecked(s, id, mid);
    CleanIsSolvent(s', id);
  }

  // ---- All of them, in a given order --------------------------------------------------------

  /** The claims of `order`, one after the other. */
  function Claims(id: nat, order: seq<nat>): (ops: seq<Op>)
    ensures |ops| == |order| && forall i | 0 <= i < |order| :: ops[i] == DoClaimMilestone(id, order[i])
  {
    seq(|order|, i requires 0 <= i < |order| => DoClaimMilestone(id, order[i]))
  }

  ghost predicate AllSucceed(s: State, ops: seq<Op>, n: nat) { forall i | 0 <= i < n :: Succeeds(s, ops, i) }

  /** Every milestone verified and none claimed, with the amounts inside i128 and the token's campaigns clean. */
  ghost predicate ReadyToClaim(s: State, id: nat, order: seq<nat>) {
    && Inv(s) && GuardsPass(s, id) && RaisedFits(s, id) && CleanToken(s, s.entries[id].terms.token)
    && s.entries[id].milestones.claimed == {} && AllVerified(s.entries[id].milestones.list)
    && Orders(order, s.entries[id].milestones.list) && order != []
  }

  lemma StartsClaimable(s: State, id: nat, order: seq<nat>)
    requires ReadyToClaim(s, id, order)
    ensures Claimable(s, id) && WellFormed(s.entries[id].milestones.list)
    ensures 0 <= CreatorTotal(s, id)
  {
    hide Inv, RaisedFits, CleanToken, AllVerified, PaidInv, WellFormed, FeeRate;
    var e := s.entries[id];
    MilestoneSound.MilestonesFrom(s, id);
    MilestoneSound.RateFrom(s, id);
    NothingClaimedYet(e.campaign, e.milestones, AuditOf(s, id));
    FeeMono(e.campaign.amountRaised, e.campaign.amountRaised, FeeRate(s.config, e.campaign));
    assert Find(e.milestones.list, order[0]).Some?;
  }

  lemma NothingClaimedYet(c: Campaign, ms: Milestones, a: Audit)
    requires PaidInv(c, ms, a) && ms.claimed == {}
    ensures a.claimTerms == {}
  {
  }

  /** After the first `n` claims, short of the last, the contract stands where the claims at the frozen total lead. */
  ghost predicate Stands(s: State, id: nat, order: seq<nat>, n: nat)
    requires n <= |order| && id in s.entries
  {
    var t := At(s, Claims(id, order), n);
    && id in t.entries && Claimable(t, id) && t.config == s.config && t.entries[id].campaign == s.entries[id].campaign
    && Ok(t.entries[id].milestones) == ClaimInOrder(s.entries[id].milestones, order[..n], CreatorTotal(s, id))
  }

  /** What the last claim of the order leaves open until then. */
  lemma NotTheLast(ms: Milestones, order: seq<nat>, n: nat)
    requires Orders(order, ms.list) && n + 1 < |order|
    ensures !AllOthersClaimed(Milestones(ms.list, Members(order[..n])), order[n])
  {
    hide Find;
    StillOpen(order, n);
    var k := FindFinds(ms.list, order[|order| - 1]);
  }

  lemma NextMilestones(ms: Milestones, mid: nat, afterFee: int)
    ensures ClaimNext(ms, mid, afterFee).Ok? ==> ClaimNext(ms, mid, afterFee) == Ok(After(ms, mid))
  {
    hide PayoutOf, Find;
  }

  lemma CallIsClaim(s: State, id: nat, mid: nat)
    ensures Call(s, DoClaimMilestone(id, mid)) == ClaimMilestone(s, id, mid)
  {
    hide CallEscrow, CallVote, CallRegistry, CallSetting, ClaimMilestone;
  }

  /** One more claim succeeds in the run exactly when it does at the frozen total. */
  lemma NextSucceedsIff(s: State, id: nat, order: seq<nat>, n: nat)
    requires ReadyToClaim(s, id, order) && n < |order| && id in s.entries && Stands(s, id, order, n)
    ensures Succeeds(s, Claims(id, order), n)
       <==> ClaimInOrder(s.entries[id].milestones, order[..n + 1], CreatorTotal(s, id)).Ok?
  {
    hide Inv, Run, Call, ClaimMilestone, ClaimNext, Claimable, ReadyToClaim;
    var t := At(s, Claims(id, order), n);
    assert order[..n + 1][..n] == order[..n];
    CallIsClaim(t, id, order[n]);
    ClaimSucceedsIff(t, id, order[n]);
    SameTotal(s, t, id);
  }

  lemma SameTotal(s: State, t: State, id: nat)
    requires id in s.entries && id in t.entries && t.config == s.config && t.entries[id].campaign == s.entries[id].campaign
    ensures CreatorTotal(t, id) == CreatorTotal(s, id)
  {
  }

  lemma NextStands(s: State, id: nat, order: seq<nat>, n: nat)
    requires ReadyToClaim(s, id, order) && n + 1 < |order| && id in s.entries && Stands(s, id, order, n)
    requires Succeeds(s, Claims(id, order), n)
    ensures Stands(s, id, order, n + 1)
  {
    hide Inv, Run, Call, ClaimMilestone, ClaimNext, Claimable, WellFormed, AllVerified, AllOthersClaimed, CleanToken, GuardsPass,
         RaisedFits, SliceOf, Orders, CreatorTotal;
    var ops := Claims(id, order);
    var t, ms := At(s, ops, n), s.entries[id].milestones;
    NextSucceedsIff(s, id, order, n);
    StartsClaimable(s, id, order);
    OrderProgress(ms, order, n, CreatorTotal(s, id));
    NotTheLast(ms, order, n);
    assert order[..n + 1][..n] == order[..n];
    CallIsClaim(t, id, order[n]);
    AtNext(s, ops, n);
    ClaimLeavesClaimable(t, id, order[n], At(s, ops, n + 1));
    NextMilestones(t.entries[id].milestones, order[n], CreatorTotal(s, id));
  }

  lemma {:induction false} OrderRuns(s: State, id: nat, order: seq<nat>, n: nat)
    requires ReadyToClaim(s, id, order) && n < |order| && id in s.entries
    ensures var done := AllSucceed(s, Claims(id, order), n);
            && (done <==> ClaimInOrder(s.entries[id].milestones, order[..n], CreatorTotal(s, id)).Ok?)
            && (done ==> Stands(s, id, order, n))
    decreases n
  {
    hide Inv, Run, Succeeds, ReadyToClaim, Stands, ClaimNext, CreatorTotal;
    if n == 0 {
      RunStarts(s, id, order);
    } else {
      OrderRuns(s, id, order, n - 1);
      assert order[..n][..n - 1] == order[..n - 1];
      if AllSucceed(s, Claims(id, order), n - 1) {
        NextSucceedsIff(s, id, order, n - 1);
        if Succeeds(s, Claims(id, order), n - 1) {
          NextStands(s, id, order, n - 1);
        }
      }
    }
  }

  lemma RunStarts(s: State, id: nat, order: seq<nat>)
    requires ReadyToClaim(s, id, order) && id in s.entries
    ensures Stands(s, id, order, 0)
  {
    hide Inv, Claimable, ReadyToClaim;
    StartsClaimable(s, id, order);
    assert Claims(id, order)[..0] == [];
  }

  lemma LastCloses(s: State, id: nat, mid: nat)
    requires ClaimMilestone(s, id, mid).Ok? && id in s.entries && AllOthersClaimed(s.entries[id].milestones, mid)
    ensures var s' := ClaimMilestone(s, id, mid).value; id in s'.entries && s'.entries[id].campaign.fundsWithdrawn
  {
    hide AllOthersClaimed, CheckClaim, PayClaim, ClaimAudit;
  }

  /** Once the whole order has gone through the campaign is complete. */
  lemma OrderEnds(s: State, id: nat, order: seq<nat>)
    requires ReadyToClaim(s, id, order) && id in s.entries && Stands(s, id, order, |order| - 1)
    requires Succeeds(s, Claims(id, order), |order| - 1)
    ensures var t := Run(s, Claims(id, order)); id in t.entries && t.entries[id].campaign.fundsWithdrawn
  {
    hide Inv, Run, Call, ClaimMilestone, ClaimNext, Claimable, WellFormed, AllVerified, AllOthersClaimed, CleanToken, GuardsPass,
         RaisedFits, SliceOf, Orders, CreatorTotal;
    var n, ops, ms := |order| - 1, Claims(id, order), s.entries[id].milestones;
    var t := At(s, ops, n);
    StartsClaimable(s, id, order);
    OrderProgress(ms, order, n, CreatorTotal(s, id));
    LastLeft(ms, order);
    CallIsClaim(t, id, order[n]);
    AtNext(s, ops, n);
    assert ops[..n + 1] == ops;
    LastCloses(t, id, order[n]);
  }

  /**
   Claimed one after the other with nothing in between, the milestones can all be claimed if and only if there is
   something to pay out and every slice before the last claim is at least 1. That completes the campaign.
   */
  lemma UninterruptedOrderCompletesIff(s: State, id: nat, order: seq<nat>)
    requires ReadyToClaim(s, id, order) && id in s.entries
    ensures AllSucceed(s, Claims(id, order), |order|)
       <==> (&& 0 < CreatorTotal(s, id)
             && forall i | 0 <= i < |order| - 1 :: 0 < SliceOf(s.entries[id].milestones.list, order[i], CreatorTotal(s, id)))
    ensures AllSucceed(s, Claims(id, order), |order|) ==>
              var t := Run(s, Claims(id, order)); id in t.entries && t.entries[id].campaign.fundsWithdrawn
  {
    hide Inv, Run, Succeeds, Stands, Claimable, ClaimNext, WellFormed, AllVerified, CleanToken, GuardsPass, RaisedFits, SliceOf,
         CreatorTotal, Orders;
    var n := |order| - 1;
    StartsClaimable(s, id, order);
    FrozenOrderCompletesIff(s.entries[id].milestones, order, CreatorTotal(s, id));
    OrderRuns(s, id, order, n);
    assert order[..n + 1] == order;
    if AllSucceed(s, Claims(id, order), n) {
      NextSucceedsIff(s, id, order, n);
      if Succeeds(s, Claims(id, order), n) {
        OrderEnds(s, id, order);
      }
    }
  }

  /** With two slices that truncate to nothing, no order of uninterrupted claims gets through. */
  lemma TwoEmptySlicesStall(s: State, id: nat, order: seq<nat>, mid: nat, other: nat)
    requires ReadyToClaim(s, id, order) && id in s.entries && mid != other && mid in order && other in order
    requires SliceOf(s.entries[id].milestones.list, mid, CreatorTotal(s, id)) <= 0
    requires SliceOf(s.entries[id].milestones.list, other, CreatorTotal(s, id)) <= 0
    ensures !AllSucceed(s, Claims(id, order), |order|)
  {
    hide Run, ReadyToClaim, AllSucceed, SliceOf, CreatorTotal;
    UninterruptedOrderCompletesIff(s, id, order);
    var i :| 0 <= i < |order| && order[i] == mid;
    var j :| 0 <= j < |order| && order[j] == other;
  }
}
