/** Revenue claims in whole numbers: what a claim entitles to, when it is paid and what a contributor has had on any run. */
module Shares {
  import opened Types
  import opened State
  import opened RevenueSharing
  import opened Invariants
  import opened Compose
  import opened ContributionProofs
  import opened RevenueTheorems
  import opened EscrowTheorems
  import opened Solvency
  import opened Runs
  import opened Rounding
  import opened Sums
  import History
  import MilestonePayouts
  import RevenueProofs
  import RevenueRuns

  // ---- The share ----------------------------------------------------------------------------

  /** Both divisions together truncate once. */
  lemma DueFloored(c: int, pool: int, share: nat, effective: int)
    requires 0 <= c && 0 <= pool && 0 < effective
    ensures Floored(Due(c, pool, share, effective), c * pool * share, effective * BPS)
  {
    var n := c * pool * share;
    assert 0 <= c * pool;
    assert 0 <= n;
    TwoFloors(n, effective, BPS);
  }

  lemma CreatorShareFloored(pool: int, share: nat)
    requires 0 <= pool && share <= BPS
    ensures Floored(CreatorShare(pool, share), pool * (BPS - share), BPS)
  {
    FloorIs(pool * (BPS - share), BPS);
  }

  // ---- When a contributor's claim is paid ---------------------------------------------------

  /** The claim that the contract treats as the last: a first claim that brings the claimants up to the contributors. */
  predicate Sweeps(e: Entry, who: Address) {
    && Get(e.revenue.claimed, who) == 0
    && 0 < e.ledger.contributorCount && e.ledger.contributorCount <= e.revenue.claimants + 1
  }

  /** The guards of `claim_revenue` and the room its checked operations need, but for the amount itself. */
  predicate ClaimOpen(s: State, e: Entry, who: Address) {
    var c, pool := Get(e.ledger.contributions, who), e.revenue.pool;
    && who != SELF && !s.paused
    && !e.campaign.isCancelled && e.campaign.hasRevenueSharing && e.campaign.fundsWithdrawn && c != 0
    && FitsI128(c * pool) && FitsI128(c * pool * e.campaign.revenueShare)
    && (Get(e.revenue.claimed, who) == 0 ==> e.revenue.claimants < U32_MAX)
    && (Sweeps(e, who) ==> FitsI128(pool * (BPS - e.campaign.revenueShare)))
  }

  lemma SharePositive(s: State, id: nat, who: Address)
    requires Inv(s) && id in s.entries && Get(s.entries[id].ledger.contributions, who) != 0
    ensures var e := s.entries[id];
            && who in e.ledger.contributions && 0 < e.ledger.contributions[who] <= e.campaign.effectiveRaised
            && 0 <= e.revenue.pool && 0 <= Get(e.revenue.claimed, who)
            && e.campaign.revenueShare <= BPS && RevenueReady(e, AuditOf(s, id))
            && (e.campaign.hasRevenueSharing <==> 0 < e.campaign.revenueShare)
  {
    hide Inv, PaidInv, VotesInv, RefundInv, MilestoneInv, ClaimsInv;
    FromInv(s, id);
    Ready(s, id);
    RevenueProofs.EffectivePositive(s.entries[id].campaign, s.entries[id].ledger, who);
  }

  /** Entitled to a unit more than they had: the share of the pool, in one division, is at least that. */
  lemma EntitledIff(s: State, id: nat, who: Address)
    requires Inv(s) && id in s.entries && Get(s.entries[id].ledger.contributions, who) != 0
    ensures var e := s.entries[id];
            var c, had := Get(e.ledger.contributions, who), Get(e.revenue.claimed, who);
            && Floored(DueTo(e, who), c * e.revenue.pool * e.campaign.revenueShare, e.campaign.effectiveRaised * BPS)
            && (0 < DueTo(e, who) - had
                <==> (had + 1) * (e.campaign.effectiveRaised * BPS) <= c * e.revenue.pool * e.campaign.revenueShare)
  {
    hide Inv, RevenueReady, Due;
    SharePositive(s, id, who);
    var e := s.entries[id];
    var c, had, d := Get(e.ledger.contributions, who), Get(e.revenue.claimed, who), e.campaign.effectiveRaised * BPS;
    DueFloored(c, e.revenue.pool, e.campaign.revenueShare, e.campaign.effectiveRaised);
    FloorAtLeast(DueTo(e, who), c * e.revenue.pool * e.campaign.revenueShare, d, had + 1);
  }

  /** What a claim adds up to stays inside i128 while the campaign is clean. */
  lemma ClaimHasRoom(s: State, id: nat, who: Address)
    requires Inv(s) && id in s.entries && Clean(s.entries[id], AuditOf(s, id)) && ClaimOpen(s, s.entries[id], who)
    requires var e := s.entries[id]; 0 < DueTo(e, who) - Get(e.revenue.claimed, who)
    ensures Claim(s.entries[id], who).Ok?
  {
    hide Inv, Clean, RevenueReady, Due, Slack;
    SharePositive(s, id, who);
    var e, a := s.entries[id], AuditOf(s, id);
    CleanCovers(s, id);
    PoolSmall(e, who);
    RoomFor(e, a, who);
  }

  lemma PoolSmall(e: Entry, who: Address)
    requires 0 < Get(e.ledger.contributions, who) && 0 <= e.revenue.pool && FitsI128(Get(e.ledger.contributions, who) * e.revenue.pool)
    ensures FitsI128(e.revenue.pool)
  {
    Scale(1, Get(e.ledger.contributions, who), e.revenue.pool);
  }

  lemma RoomFor(e: Entry, a: Audit, who: Address)
    requires RevenueReady(e, a) && 0 <= Slack(e) && who in e.ledger.contributions && FitsI128(e.revenue.pool)
    requires 0 < DueTo(e, who) - Get(e.revenue.claimed, who)
    requires e.campaign.revenueShare <= BPS && 0 <= e.revenue.pool
    ensures FitsI128(Get(e.revenue.claimed, who) + Claimable(e, who))
    ensures FitsI128(e.revenue.distributed + Claimable(e, who))
  {
    hide Due, DueTo, Claimable, Slack, CreatorShare, LedgerInv;
    ClaimWithinHeld(e, a, who);
    ShareWithin(e.revenue.pool, e.campaign.revenueShare);
    ClaimedWithin(e, a, who);
  }

  lemma ClaimedWithin(e: Entry, a: Audit, who: Address)
    requires RevenueReady(e, a)
    ensures 0 <= Get(e.revenue.claimed, who) <= e.revenue.distributed
  {
    hide Due, LedgerInv, ClaimsInv, Sum;
    SumNonNegative(e.revenue.claimed);
    if who in e.revenue.claimed {
      SumAtLeast(e.revenue.claimed, who);
    }
  }

  /**
   A contributor's claim on a campaign of clean books is paid exactly when nothing else stands in its way and their share
   of the pool, rounded down once, is at least a unit more than they have had.
   */
  lemma ClaimPaidIff(s: State, id: nat, who: Address)
    requires Inv(s) && id in s.entries && CleanToken(s, s.entries[id].terms.token)
    ensures var e := s.entries[id];
            var c, had := Get(e.ledger.contributions, who), Get(e.revenue.claimed, who);
            ClaimRevenue(s, id, who).Ok?
            <==> (&& ClaimOpen(s, e, who)
                  && (had + 1) * (e.campaign.effectiveRaised * BPS) <= c * e.revenue.pool * e.campaign.revenueShare)
  {
    hide Inv, Claim, CleanToken, ClaimOpen, DueTo, RevenueReady;
    var e := s.entries[id];
    if Get(e.ledger.contributions, who) == 0 {
      NothingToClaim(s, id, who);
    } else {
      EntitledIff(s, id, who);
      SharePositive(s, id, who);
      OpenIff(s, id, who);
      if ClaimOpen(s, e, who) && 0 < DueTo(e, who) - Get(e.revenue.claimed, who) {
        CleanOne(s, id);
        ClaimHasRoom(s, id, who);
      }
    }
  }

  lemma CleanOne(s: State, id: nat)
    requires id in s.entries && CleanToken(s, s.entries[id].terms.token)
    ensures Clean(s.entries[id], AuditOf(s, id))
  {
    hide Clean;
  }

  lemma NothingToClaim(s: State, id: nat, who: Address)
    requires id in s.entries && Get(s.entries[id].ledger.contributions, who) == 0
    ensures ClaimRevenue(s, id, who).Err? && !ClaimOpen(s, s.entries[id], who)
  {
    hide DueFits, DueTo, RevenueSharing.ClaimFits, AfterClaim, AuditClaim, Transfer;
  }

  /** The guards of the code, given that tokens suffice. */
  lemma OpenIff(s: State, id: nat, who: Address)
    requires Inv(s) && id in s.entries && CleanToken(s, s.entries[id].terms.token)
    requires Get(s.entries[id].ledger.contributions, who) != 0 && s.entries[id].campaign.revenueShare <= BPS
    ensures var e := s.entries[id];
            && (ClaimRevenue(s, id, who).Ok? ==> ClaimOpen(s, e, who) && 0 < DueTo(e, who) - Get(e.revenue.claimed, who))
            && (ClaimOpen(s, e, who) && Claim(e, who).Ok? ==> ClaimRevenue(s, id, who).Ok?)
  {
    hide Inv, CleanToken, Due, AfterClaim, AuditClaim, Credit, Balance, Claimable;
    RevenueNeverShort(s, id, who);
  }

  // ---- What a claim leaves ------------------------------------------------------------------

  /**
   After an ordinary claim a contributor has had exactly their share of the present pool, rounded down once; the last
   claimant leaves exactly the contributors' side paid out, which is the pool less the creator's share rounded down.
   */
  lemma ClaimLeaves(s: State, id: nat, who: Address, s': State)
    requires Inv(s) && id in s.entries && ClaimRevenue(s, id, who) == Ok(s')
    ensures id in s'.entries
    ensures var e, r := s.entries[id], s'.entries[id].revenue;
            var c := Get(e.ledger.contributions, who);
            && (!Sweeps(e, who) ==>
                  Floored(Get(r.claimed, who), c * e.revenue.pool * e.campaign.revenueShare, e.campaign.effectiveRaised * BPS))
            && (Sweeps(e, who) ==>
                  Floored(e.revenue.pool - r.distributed, e.revenue.pool * (BPS - e.campaign.revenueShare), BPS))
            && r.distributed - e.revenue.distributed == Get(r.claimed, who) - Get(e.revenue.claimed, who)
  {
    hide Inv, Claim, RevenueReady, DueTo, LastClaimant, CreatorShare, ClaimOpen;
    var e := s.entries[id];
    ClaimApplies(s, id, who);
    ClaimParts(e, who);
    SharePositive(s, id, who);
    EntitledIff(s, id, who);
    SweepsIsLast(e, who);
    if Sweeps(e, who) {
      LastClaimantSweeps(e, AuditOf(s, id), who);
      CreatorShareFloored(e.revenue.pool, e.campaign.revenueShare);
    }
  }

  lemma SweepsIsLast(e: Entry, who: Address)
    ensures Sweeps(e, who) <==> LastClaimant(e, who)
  {
  }

  lemma ClaimApplies(s: State, id: nat, who: Address)
    requires ClaimRevenue(s, id, who).Ok? && id in s.entries
    ensures Claim(s.entries[id], who).Ok? && Get(s.entries[id].ledger.contributions, who) != 0
    ensures ClaimRevenue(s, id, who).value.entries == s.entries[id := Claim(s.entries[id], who).value]
  {
    hide DueFits, DueTo, RevenueSharing.ClaimFits, AfterClaim, AuditClaim, Transfer;
  }

  /** The creator is paid exactly when their share of the pool, rounded down, is at least a unit more than they have had, and then has had it. */
  lemma CreatorPaidIff(s: State, id: nat)
    requires Inv(s) && id in s.entries && CleanToken(s, s.entries[id].terms.token)
    ensures var e, r := s.entries[id], ClaimCreatorRevenue(s, id);
            var side := e.revenue.pool * (BPS - e.campaign.revenueShare);
            && (r.Ok? <==> !s.paused && e.campaign.hasRevenueSharing && FitsI128(side) && (e.revenue.creatorClaimed + 1) * BPS <= side)
            && (r.Ok? ==> id in r.value.entries && Floored(r.value.entries[id].revenue.creatorClaimed, side, BPS))
  {
    hide Inv, CleanToken, CreatorShare, Credit, Balance;
    RevenueNeverShort(s, id, s.entries[id].campaign.creator);
    RevenueRuns.CreatorSigns(s, id);
    PoolSigned(s, id);
    var e := s.entries[id];
    CreatorShareFloored(e.revenue.pool, e.campaign.revenueShare);
    FloorAtLeast(CreatorShare(e.revenue.pool, e.campaign.revenueShare), e.revenue.pool * (BPS - e.campaign.revenueShare), BPS,
                 e.revenue.creatorClaimed + 1);
  }

  lemma PoolSigned(s: State, id: nat)
    requires Inv(s) && id in s.entries
    ensures 0 <= s.entries[id].revenue.pool && s.entries[id].campaign.revenueShare <= BPS
  {
    hide Inv, LedgerInv, PaidInv, VotesInv, RefundInv, MilestoneInv, ClaimsInv;
    FromInv(s, id);
  }

  // ---- Runs ---------------------------------------------------------------------------------

  /** The `k`-th call is a successful revenue claim of `who` on campaign `id`. */
  predicate ClaimsAt(s: State, ops: seq<Op>, id: nat, who: Address, k: nat) {
    Succeeds(s, ops, k) && ops[k] == DoClaimRevenue(id, who) && id in At(s, ops, k).entries
  }

  /** The `i`-th call is the last successful claim of `who`, and none of them was the sweeping one. */
  ghost predicate LastOrdinary(s: State, ops: seq<Op>, id: nat, who: Address, i: nat) {
    && ClaimsAt(s, ops, id, who, i)
    && (forall k | i < k < |ops| :: !ClaimsAt(s, ops, id, who, k))
    && (forall k | 0 <= k <= i && ClaimsAt(s, ops, id, who, k) :: !Sweeps(At(s, ops, k).entries[id], who))
  }

  lemma RecordsClaim(s: State, op: Op, id: nat, a: Audit, who: Address)
    ensures var a' := History.HistoryStep(s, op, id, a);
            if op == DoClaimRevenue(id, who) && Call(s, op).Ok? && id in s.entries then
              && who in a'.claimPool && a'.claimPool[who] == s.entries[id].revenue.pool
              && a'.sweeper == if Sweeps(s.entries[id], who) then Some(who) else a.sweeper
            else
              && (who in a'.claimPool <==> who in a.claimPool) && (who in a.claimPool ==> a'.claimPool[who] == a.claimPool[who])
              && (a'.sweeper == Some(who) ==> a.sweeper == Some(who))
  {
    hide Call, MilestonePayouts.CheckClaim;
  }

  lemma {:induction false} ClaimPoolTrace(s: State, ops: seq<Op>, id: nat, who: Address)
    requires forall k | 0 <= k < |ops| && ClaimsAt(s, ops, id, who, k) :: !Sweeps(At(s, ops, k).entries[id], who)
    ensures var a := History.HistoryOf(s, ops, id);
            && a.sweeper != Some(who)
            && forall i | 0 <= i < |ops| && ClaimsAt(s, ops, id, who, i) && (forall k | i < k < |ops| :: !ClaimsAt(s, ops, id, who, k)) ::
                 who in a.claimPool && a.claimPool[who] == At(s, ops, i).entries[id].revenue.pool
    decreases |ops|
  {
    hide Run, Call, History.HistoryStep, Sweeps;
    if ops != [] {
      var front := ops[..|ops| - 1];
      forall k | 0 <= k < |front|
        ensures At(s, front, k) == At(s, ops, k) && (ClaimsAt(s, front, id, who, k) <==> ClaimsAt(s, ops, id, who, k))
      {
        assert front[..k] == ops[..k];
      }
      ClaimPoolTrace(s, front, id, who);
      var n, a := |front|, History.HistoryOf(s, ops, id);
      RecordsClaim(Run(s, front), ops[n], id, History.HistoryOf(s, front, id), who);
      assert ClaimsAt(s, ops, id, who, n)
        <==> ops[n] == DoClaimRevenue(id, who) && Call(Run(s, front), ops[n]).Ok? && id in Run(s, front).entries;
      forall i | 0 <= i < |ops| && ClaimsAt(s, ops, id, who, i) && (forall k | i < k < |ops| :: !ClaimsAt(s, ops, id, who, k))
        ensures who in a.claimPool && a.claimPool[who] == At(s, ops, i).entries[id].revenue.pool
      {
        if i < n {
          assert ClaimsAt(s, front, id, who, i);
        }
      }
    }
  }

  /**
   On every run a contributor whose claims did not sweep the remainder has had, in all, exactly their share of the pool
   at their last claim, rounded down once.
   */
  lemma ShareOnRuns(s: State, ops: seq<Op>, id: nat, who: Address, i: nat)
    requires Init(s) && LastOrdinary(s, ops, id, who, i)
    ensures id in Run(s, ops).entries
    ensures var e, pool := Run(s, ops).entries[id], At(s, ops, i).entries[id].revenue.pool;
            Floored(Get(e.revenue.claimed, who), Get(e.ledger.contributions, who) * pool * e.campaign.revenueShare,
                    e.campaign.effectiveRaised * BPS)
  {
    hide Init, Inv, Run, Call, History.HistoryOf, LedgerInv, PaidInv, VotesInv, RefundInv, MilestoneInv, Due, Sweeps;
    ClaimPoolTrace(s, ops, id, who);
    History.HistoryIsTrace(s, ops, id);
    InitInv(s);
    RunEvolves(s, ops, i, |ops|);
    assert ops[..|ops|] == ops;
    ReachableInv(s, ops);
    FromInv(Run(s, ops), id);
    HadExactly(Run(s, ops), id, who);
  }

  lemma HadExactly(s: State, id: nat, who: Address)
    requires Inv(s) && id in s.entries && who in AuditOf(s, id).claimPool && AuditOf(s, id).sweeper != Some(who)
    ensures var e := s.entries[id];
            Floored(Get(e.revenue.claimed, who), Get(e.ledger.contributions, who) * AuditOf(s, id).claimPool[who] * e.campaign.revenueShare,
                    e.campaign.effectiveRaised * BPS)
  {
    hide Inv, PaidInv, VotesInv, RefundInv, MilestoneInv, Due;
    FromInv(s, id);
    var e, a := s.entries[id], AuditOf(s, id);
    RevenueProofs.EffectivePositive(e.campaign, e.ledger, who);
    DueFloored(e.ledger.contributions[who], a.claimPool[who], e.campaign.revenueShare, e.campaign.effectiveRaised);
  }
}
