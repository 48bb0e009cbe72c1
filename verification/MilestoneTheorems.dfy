/** Milestone payouts over whole runs. */
module MilestoneTheorems {
  import opened Types
  import opened State
  import opened MilestonePayouts
  import opened Invariants
  import opened Slices
  import opened MilestoneProofs
  import opened MilestoneSound
  import opened Compose
  import opened ContributionProofs
  import opened Runs
  import EscrowTheorems

  lemma PaidFrom(s: State, ops: seq<Op>, id: nat)
    requires Init(s) && id in Run(s, ops).entries
    ensures var e := Run(s, ops).entries[id];
            && PaidInv(e.campaign, e.milestones, AuditOf(Run(s, ops), id))
            && (e.milestones.list != [] ==> WellFormed(e.milestones.list) && |e.milestones.list| <= MAX_MILESTONES)
            && 0 <= e.campaign.amountRaised
            && (e.milestones.list != [] ==> (e.campaign.fundsWithdrawn <==> AllClaimed(e.milestones)))
  {
    hide Inv, Run, PaidInv, WellFormed;
    ReachableInv(s, ops);
    MilestonesFrom(Run(s, ops), id);
  }

  /**
   Exactness in any order: if every claim saw the same amount raised and fee rate, then once all milestones
   are claimed the creator has had exactly the amount less the fee and the admin exactly the fee, rounded up.
   */
  lemma MilestonesExact(s: State, ops: seq<Op>, id: nat, raised: int, rate: nat)
    requires Init(s) && id in Run(s, ops).entries
    requires SameTerms(AuditOf(Run(s, ops), id), raised, rate) && Completed(Run(s, ops).entries[id].milestones)
    ensures AuditOf(Run(s, ops), id).creatorPaid == raised - SliceUp(raised, rate)
    ensures AuditOf(Run(s, ops), id).feePaid == SliceUp(raised, rate)
  {
    hide Inv, Run, Completed;
    PaidFrom(s, ops, id);
  }

  /** No prefix of the claims pays either share more than its total. */
  lemma PrefixWithinTotals(s: State, ops: seq<Op>, id: nat, raised: int, rate: nat)
    requires Init(s) && id in Run(s, ops).entries
    requires SameTerms(AuditOf(Run(s, ops), id), raised, rate) && 0 <= raised && rate <= BPS
    ensures AuditOf(Run(s, ops), id).creatorPaid <= raised - SliceUp(raised, rate)
    ensures AuditOf(Run(s, ops), id).feePaid <= SliceUp(raised, rate)
  {
    hide Inv, Run, WellFormed;
    PaidFrom(s, ops, id);
    FeeMono(raised, raised, rate);
    SlicesWithin(Run(s, ops).entries[id].milestones, raised - SliceUp(raised, rate));
    SlicesWithin(Run(s, ops).entries[id].milestones, SliceUp(raised, rate));
  }

  /** Contributions may arrive between claims: under one fee rate the payouts never exceed the amount raised. */
  lemma NeverOverpaysUnderOneRate(s: State, ops: seq<Op>, id: nat, rate: nat)
    requires Init(s) && id in Run(s, ops).entries
    requires SameRate(AuditOf(Run(s, ops), id), rate) && rate <= BPS
    ensures var c := Run(s, ops).entries[id].campaign;
            && AuditOf(Run(s, ops), id).creatorPaid <= c.amountRaised - SliceUp(c.amountRaised, rate)
            && AuditOf(Run(s, ops), id).feePaid <= SliceUp(c.amountRaised, rate)
  {
    hide Inv, Run, WellFormed;
    PaidFrom(s, ops, id);
    var e := Run(s, ops).entries[id];
    var raised := e.campaign.amountRaised;
    FeeMono(raised, raised, rate);
    SlicesWithin(e.milestones, raised - SliceUp(raised, rate));
    SlicesWithin(e.milestones, SliceUp(raised, rate));
  }

  /** Whatever the fee rates between claims, the overpayment is below the number of milestones. */
  lemma OverpayBound(s: State, ops: seq<Op>, id: nat)
    requires Init(s) && id in Run(s, ops).entries
    ensures var a, e := AuditOf(Run(s, ops), id), Run(s, ops).entries[id];
            && (Completed(e.milestones) ==> a.creatorPaid + a.feePaid <= e.campaign.amountRaised + |e.milestones.list| - 1)
            && (!Completed(e.milestones) ==> a.creatorPaid + a.feePaid <= e.campaign.amountRaised)
            && a.creatorPaid + a.feePaid <= e.campaign.amountRaised + 9
  {
    hide Inv, Run, WellFormed, Completed;
    PaidFrom(s, ops, id);
    SlicesWithin(Run(s, ops).entries[id].milestones, Run(s, ops).entries[id].campaign.amountRaised);
    CompletedListed(Run(s, ops).entries[id].milestones);
  }

  lemma CompletedListed(ms: Milestones)
    ensures Completed(ms) ==> ms.list != []
  {
  }

  /** The claim that takes the remainders is the claim that completes the campaign. */
  lemma DustIffCompletes(s: State, id: nat, mid: nat, s': State)
    requires Inv(s) && id in s.entries && ClaimMilestone(s, id, mid) == Ok(s')
    requires Find(s.entries[id].milestones.list, mid).Some?
    ensures id in s'.entries
    ensures IsLast(s.entries[id].milestones, Find(s.entries[id].milestones.list, mid).value) <==> s'.entries[id].campaign.fundsWithdrawn
    ensures s'.entries[id].campaign.fundsWithdrawn <==> Completed(s'.entries[id].milestones)
  {
    hide Inv, ClaimMilestone, MilestoneInv, PaidInv, WellFormed, PayoutOf, FeePayoutOf;
    ClaimShape(s, id, mid);
    MilestonesFrom(s, id);
    var ms := s.entries[id].milestones;
    var k := FindFinds(ms.list, mid);
    ListFormed(s.entries[id].campaign, ms, k);
    LastIffOthersClaimed(ms, k);
  }

  /** What the claimed milestones come to when their slices are recomputed at today's amount raised and fee rate. */
  function Recomputed(ms: Milestones, raised: int, rate: nat): int {
    ClaimedSlices(ms.list, ms.claimed, raised - SliceUp(raised, rate)) + ClaimedSlices(ms.list, ms.claimed, SliceUp(raised, rate))
  }

  /**
   The completing claim pays, on top of what was paid before, the amount raised less the recomputed slices. So in all
   more is paid than was raised if and only if the earlier claims paid more than their slices come to today.
   */
  lemma OverpaysIff(s: State, id: nat, mid: nat, s': State)
    requires Inv(s) && id in s.entries && ClaimMilestone(s, id, mid) == Ok(s')
    requires id in s'.entries && s'.entries[id].campaign.fundsWithdrawn
    ensures var a, a', raised := AuditOf(s, id), AuditOf(s', id), s.entries[id].campaign.amountRaised;
            var today := Recomputed(s.entries[id].milestones, raised, FeeRate(s.config, s.entries[id].campaign));
            && (a'.creatorPaid + a'.feePaid) - raised == (a.creatorPaid + a.feePaid) - today
            && (raised < a'.creatorPaid + a'.feePaid <==> today < a.creatorPaid + a.feePaid)
  {
    hide Inv, ClaimMilestone, MilestoneInv, PaidInv, WellFormed, PayoutOf, FeePayoutOf, Find, SliceUp, FeeRate, Transfer, PayFee,
         AllOthersClaimed;
    ClaimShape(s, id, mid);
    MilestonesFrom(s, id);
    RateFrom(s, id);
    var c, ms := s.entries[id].campaign, s.entries[id].milestones;
    var k := FindFinds(ms.list, mid);
    ListFormed(c, ms, k);
    FeeMono(c.amountRaised, c.amountRaised, FeeRate(s.config, c));
    var fee := SliceUp(c.amountRaised, FeeRate(s.config, c));
    LastPays(ms, k, c.amountRaised - fee);
    LastPays(ms, k, fee);
  }

  lemma LastPays(ms: Milestones, k: nat, x: int)
    requires WellFormed(ms.list) && k < |ms.list| && ms.list[k].id !in ms.claimed && 0 <= x
    requires AllOthersClaimed(ms, ms.list[k].id)
    ensures PayoutOf(ms, ms.list[k], x) == x - ClaimedSlices(ms.list, ms.claimed, x)
    ensures FeePayoutOf(ms, ms.list[k], x) == PayoutOf(ms, ms.list[k], x)
  {
    hide WellFormed;
    LastIffOthersClaimed(ms, k);
    ClaimReleases(ms, k, x);
  }

  /** Once a campaign has completed, no further claim succeeds: the remainders are paid once. */
  lemma CompletesOnce(s: State, ops: seq<Op>, i: nat, j: nat, id: nat, mid: nat)
    requires Init(s) && i <= j && j < |ops| && id in At(s, ops, i).entries
    requires At(s, ops, i).entries[id].campaign.fundsWithdrawn && ops[j] == DoClaimMilestone(id, mid)
    ensures !Succeeds(s, ops, j)
  {
    hide Inv, Run, Next, ClaimMilestone;
    InitInv(s);
    RunEvolves(s, ops, i, j);
    if Succeeds(s, ops, j) {
      ClaimShape(At(s, ops, j), id, mid);
    }
  }
}
