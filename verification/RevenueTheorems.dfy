/** What the revenue split guarantees, and exactly when the last-claimant branch lets it go wrong. */
module RevenueTheorems {
  import opened Types
  import opened State
  import opened Sums
  import opened RevenueSharing
  import opened Invariants
  import opened RevenueProofs

  /** The parts of a campaign's invariant that revenue rests on. */
  ghost predicate RevenueReady(e: Entry, a: Audit) {
    && CampaignShare(e.campaign)
    && LedgerInv(e.campaign, e.ledger)
    && RevenueInv(e.campaign, e.ledger, e.revenue, a)
    && e.ledger.contributions != map[]
  }

  // ---- Before the last claimant -------------------------------------------------------------

  /** Path independence: what a contributor has had in all is their share of the pool at their last claim. */
  lemma PathIndependence(e: Entry, a: Audit, who: Address)
    requires RevenueReady(e, a) && who in e.revenue.claimed && a.sweeper != Some(who)
    ensures e.revenue.claimed[who]
            == Due(e.ledger.contributions[who], a.claimPool[who], e.campaign.revenueShare, e.campaign.effectiveRaised)
    ensures e.revenue.claimed[who] <= DueTo(e, who)
  {
    EffectivePositive(e.campaign, e.ledger, who);
    DueMono(e.ledger.contributions[who], a.claimPool[who], e.revenue.pool, e.campaign.revenueShare, e.campaign.effectiveRaised);
  }

  lemma EffectiveIsSum(e: Entry, a: Audit)
    requires RevenueReady(e, a)
    ensures e.campaign.effectiveRaised == Sum(e.ledger.contributions) && 0 < e.campaign.effectiveRaised
  {
    var who :| who in e.ledger.contributions;
    EffectivePositive(e.campaign, e.ledger, who);
  }

  function AllDue(e: Entry): map<Address, int> {
    Dues(e.ledger.contributions, e.revenue.pool, e.campaign.revenueShare, e.campaign.effectiveRaised)
  }

  lemma AllDueWithin(e: Entry, a: Audit)
    requires RevenueReady(e, a)
    ensures 0 <= Sum(AllDue(e)) <= ContributorShare(e.revenue.pool, e.campaign.revenueShare)
    ensures forall who | who in AllDue(e) :: 0 <= AllDue(e)[who]
  {
    EffectiveIsSum(e, a);
    forall who | who in AllDue(e)
      ensures 0 <= AllDue(e)[who]
    {
      DueMono(e.ledger.contributions[who], e.revenue.pool, e.revenue.pool, e.campaign.revenueShare, e.campaign.effectiveRaised);
    }
    hide Due, ContributorShare;
    SumNonNegative(AllDue(e));
    DuesWithin(e.ledger.contributions, e.revenue.pool, e.campaign.revenueShare);
  }

  /** Over any interleaving of deposits and claims before the last claimant, nobody has been paid more than the pool covers. */
  lemma NoOverdrawBeforeSweep(e: Entry, a: Audit)
    requires RevenueReady(e, a) && a.sweeper.None?
    ensures e.revenue.distributed <= Sum(AllDue(e)) <= ContributorShare(e.revenue.pool, e.campaign.revenueShare)
    ensures e.revenue.distributed + e.revenue.creatorClaimed <= e.revenue.pool
  {
    AllDueWithin(e, a);
    forall who | who in e.revenue.claimed
      ensures e.revenue.claimed[who] <= AllDue(e)[who]
    {
      PathIndependence(e, a, who);
    }
    hide Due;
    SumMono(e.revenue.claimed, AllDue(e));
  }

  // ---- The last claimant --------------------------------------------------------------------

  /**
   Whatever deposits and claims came before, the claim that brings the claimants up to the contributors
   leaves exactly the contributors' side of the pool paid out.
   */
  lemma LastClaimantSweeps(e: Entry, a: Audit, who: Address)
    requires RevenueReady(e, a) && Claim(e, who).Ok? && LastClaimant(e, who)
    ensures Claim(e, who).value.revenue.distributed == ContributorShare(e.revenue.pool, e.campaign.revenueShare)
  {
    hide Due;
    LastClaimsAll(e, a, who);
    NoOverdrawBeforeSweep(e, a);
    RestCoversOwn(e, a, who);
  }

  lemma RestCoversOwn(e: Entry, a: Audit, who: Address)
    requires RevenueReady(e, a) && a.sweeper.None? && who in e.ledger.contributions && who !in e.revenue.claimed
    ensures e.revenue.distributed + DueTo(e, who) <= ContributorShare(e.revenue.pool, e.campaign.revenueShare)
  {
    AllDueWithin(e, a);
    var paid := e.revenue.claimed[who := DueTo(e, who)];
    SumPut(e.revenue.claimed, who, DueTo(e, who));
    forall x | x in paid
      ensures paid[x] <= AllDue(e)[x]
    {
      if x != who {
        PathIndependence(e, a, x);
      }
    }
    hide Due;
    SumMono(paid, AllDue(e));
  }

  // ---- A whole round: no deposit after the first claim ---------------------------------------

  predicate FreshRound(e: Entry) {
    && e.revenue.claimed == map[] && e.revenue.claimants == 0 && e.revenue.distributed == 0
    && !e.campaign.isCancelled && e.campaign.fundsWithdrawn && e.campaign.hasRevenueSharing
  }

  /** The checked products of the round's claims fit, and so does the count of claimants. */
  predicate RoundFits(e: Entry) {
    && (forall who | who in e.ledger.contributions :: DueFits(e, who))
    && FitsI128(e.revenue.pool * (BPS - e.campaign.revenueShare))
    && e.ledger.contributorCount <= U32_MAX
  }

  /** The claims of `order`, one after the other. */
  function ClaimEach(e: Entry, order: seq<Address>): Result<Entry> {
    if order == [] then Ok(e)
    else
      var e1 :- ClaimEach(e, order[..|order| - 1]);
      Claim(e1, order[|order| - 1])
  }

  /** Every contributor exactly once. */
  ghost predicate Enumerates(order: seq<Address>, m: map<Address, int>) {
    && (forall i, j | 0 <= i < j < |order| :: order[i] != order[j])
    && (forall who :: who in order <==> who in m)
  }

  /** Where a round stands after the claims of `order`, short of the last. */
  ghost predicate Midway(e: Entry, e': Entry, order: seq<Address>) {
    && e' == e.(revenue := e'.revenue)
    && e'.revenue == e.revenue.(claimed := e'.revenue.claimed, distributed := e'.revenue.distributed, claimants := |order|)
    && (forall who :: who in e'.revenue.claimed <==> who in order)
    && (forall who | who in e'.revenue.claimed :: e'.revenue.claimed[who] == DueTo(e, who))
    && e'.revenue.distributed == Sum(e'.revenue.claimed)
  }

  lemma ShareWithin(pool: int, share: nat)
    requires 0 <= pool && share <= BPS
    ensures 0 <= ContributorShare(pool, share) <= pool
  {
    assert 0 <= pool * (BPS - share) <= pool * BPS;
  }

  /** A pool whose product with a contribution fits does so itself. */
  lemma PoolFits(e: Entry, who: Address)
    requires DueFits(e, who) && 0 < Get(e.ledger.contributions, who) && 0 <= e.revenue.pool
    ensures FitsI128(e.revenue.pool)
  {
    MulMono(1, Get(e.ledger.contributions, who), e.revenue.pool);
  }

  lemma MidwayFacts(e: Entry, e1: Entry, order: seq<Address>, who: Address)
    requires Midway(e, e1, order) && who !in order && |order| < e.ledger.contributorCount
    ensures Get(e1.revenue.claimed, who) == 0
    ensures forall x :: DueTo(e1, x) == DueTo(e, x)
    ensures LastClaimant(e1, who) <==> |order| + 1 == e.ledger.contributorCount
    ensures var rest := ContributorShare(e.revenue.pool, e.campaign.revenueShare) - e1.revenue.distributed;
            Claimable(e1, who) == if LastClaimant(e1, who) && DueTo(e, who) < rest then rest else DueTo(e, who)
  {
    hide Due, ContributorShare;
  }

  lemma RoundClaims(e: Entry, a: Audit, e1: Entry, order: seq<Address>, who: Address)
    requires RevenueReady(e, a) && FreshRound(e) && RoundFits(e) && Midway(e, e1, order)
    requires who in e.ledger.contributions && who !in order && |order| < e.ledger.contributorCount
    requires 0 < DueTo(e, who)
    requires e1.revenue.distributed + DueTo(e, who) <= ContributorShare(e.revenue.pool, e.campaign.revenueShare)
    requires 0 <= e1.revenue.distributed
    ensures Claim(e1, who) == Ok(AfterClaim(e1, who))
  {
    var pool, share := e.revenue.pool, e.campaign.revenueShare;
    EffectivePositive(e.campaign, e.ledger, who);
    PoolFits(e, who);
    ShareWithin(pool, share);
    assert DueFits(e1, who);
    hide LedgerInv, RevenueInv, DueTo, ContributorShare, Claimable, LastClaimant, AfterClaim;
    MidwayFacts(e, e1, order, who);
  }

  lemma MidwayNext(e: Entry, e1: Entry, order: seq<Address>, who: Address)
    requires Midway(e, e1, order) && who !in order && Claimable(e1, who) == DueTo(e, who)
    requires Get(e1.revenue.claimed, who) == 0
    ensures Midway(e, AfterClaim(e1, who), order + [who])
  {
    hide DueTo, Claimable;
    SumPut(e1.revenue.claimed, who, DueTo(e, who));
    var claimed' := AfterClaim(e1, who).revenue.claimed;
    assert claimed' == e1.revenue.claimed[who := DueTo(e, who)];
    forall x
      ensures x in claimed' <==> x in order + [who]
    {
    }
  }

  /** A round's next claim succeeds, and pays the claimant's share unless it is the last. */
  lemma RoundStep(e: Entry, a: Audit, e1: Entry, order: seq<Address>, who: Address)
    requires RevenueReady(e, a) && FreshRound(e) && RoundFits(e) && Midway(e, e1, order)
    requires who in e.ledger.contributions && who !in order && |order| < e.ledger.contributorCount
    requires 0 < DueTo(e, who)
    requires e1.revenue.distributed + DueTo(e, who) <= ContributorShare(e.revenue.pool, e.campaign.revenueShare)
    requires 0 <= e1.revenue.distributed
    ensures Claim(e1, who) == Ok(AfterClaim(e1, who))
    ensures |order| + 1 < e.ledger.contributorCount ==> Midway(e, AfterClaim(e1, who), order + [who])
    ensures |order| + 1 == e.ledger.contributorCount ==>
              AfterClaim(e1, who).revenue.distributed == ContributorShare(e.revenue.pool, e.campaign.revenueShare)
  {
    hide RevenueReady, FreshRound, RoundFits, Midway, DueTo, ContributorShare, Claimable, LastClaimant, Claim;
    RoundClaims(e, a, e1, order, who);
    MidwayFacts(e, e1, order, who);
    if |order| + 1 < e.ledger.contributorCount {
      MidwayNext(e, e1, order, who);
    }
  }

  /** The midway invariant holds through the whole order: each claim but the last pays one truncated share. */
  lemma {:induction false} RoundProgress(e: Entry, a: Audit, order: seq<Address>)
    requires RevenueReady(e, a) && FreshRound(e) && RoundFits(e)
    requires (forall i, j | 0 <= i < j < |order| :: order[i] != order[j])
    requires forall who | who in order :: who in e.ledger.contributions && 0 < DueTo(e, who)
    requires |order| < e.ledger.contributorCount
    ensures ClaimEach(e, order).Ok? && Midway(e, ClaimEach(e, order).value, order)
    decreases |order|
  {
    hide RevenueReady, Claim, Midway, RoundFits, FreshRound, DueTo;
    if order == [] {
      RoundStarts(e, a);
    } else {
      var front, who := order[..|order| - 1], order[|order| - 1];
      RoundProgress(e, a, front);
      var e1 := ClaimEach(e, front).value;
      RoundRoom(e, a, e1, front, who);
      RoundStep(e, a, e1, front, who);
      assert front + [who] == order;
    }
  }

  lemma RoundStarts(e: Entry, a: Audit)
    requires RevenueReady(e, a) && FreshRound(e)
    ensures Midway(e, e, [])
  {
  }

  /** The shares paid so far and the next one still fit the contributors' side. */
  lemma RoundRoom(e: Entry, a: Audit, e1: Entry, order: seq<Address>, who: Address)
    requires RevenueReady(e, a) && Midway(e, e1, order) && who in e.ledger.contributions && who !in order
    requires forall x | x in order :: x in e.ledger.contributions
    ensures 0 <= e1.revenue.distributed
    ensures e1.revenue.distributed + DueTo(e, who) <= ContributorShare(e.revenue.pool, e.campaign.revenueShare)
  {
    hide DueTo, ContributorShare, RevenueReady, AllDue;
    AllDueWithin(e, a);
    AllDueIs(e);
    var claimed := e1.revenue.claimed;
    var next := claimed[who := DueTo(e, who)];
    forall x | x in next
      ensures x in AllDue(e) && next[x] == AllDue(e)[x]
    {
      assert x == who || x in order;
    }
    SumNonNegative(claimed);
    SumPut(claimed, who, DueTo(e, who));
    SumMono(next, AllDue(e));
  }

  lemma AllDueIs(e: Entry)
    ensures AllDue(e).Keys == e.ledger.contributions.Keys
    ensures forall who | who in AllDue(e) :: AllDue(e)[who] == DueTo(e, who)
  {
    hide Due;
  }

  lemma {:induction false} OrderLength(order: seq<Address>, keys: set<Address>)
    requires forall i, j | 0 <= i < j < |order| :: order[i] != order[j]
    requires forall who :: who in order <==> who in keys
    ensures |order| == |keys|
    decreases |order|
  {
    if order != [] {
      var front, last := order[..|order| - 1], order[|order| - 1];
      assert forall who :: who in order <==> who in front || who == last;
      OrderLength(front, keys - {last});
    } else {
      assert keys == {};
    }
  }

  /**
   Exactness in any order: with no deposit after the first claim and every truncated share at least 1, all
   contributors claiming in any order are paid the contributors' side of the pool between them, and once the
   creator has claimed what is due to them nothing of the pool is held.
   */
  lemma RoundExact(e: Entry, a: Audit, order: seq<Address>)
    requires RevenueReady(e, a) && FreshRound(e) && RoundFits(e) && Enumerates(order, e.ledger.contributions)
    requires forall who | who in e.ledger.contributions :: 0 < DueTo(e, who)
    ensures var done := ClaimEach(e, order);
            && done.Ok?
            && done.value.revenue.distributed == ContributorShare(e.revenue.pool, e.campaign.revenueShare)
            && HeldRevenue(AfterCreator(done.value).revenue) == 0
  {
    hide RevenueReady, Claim, CreatorClaim, Midway, RoundFits, FreshRound, DueTo, ContributorShare, CreatorShare;
    OrderLength(order, e.ledger.contributions.Keys);
    RoundSize(e, a);
    var front, who := order[..|order| - 1], order[|order| - 1];
    RoundProgress(e, a, front);
    var e1 := ClaimEach(e, front).value;
    RoundRoom(e, a, e1, front, who);
    RoundStep(e, a, e1, front, who);
    RoundLeavesCreator(e, a, e1, front, who);
  }

  /** After the creator's claim, if there is anything for the creator to claim. */
  function AfterCreator(e: Entry): Entry { if CreatorClaim(e).Ok? then CreatorClaim(e).value else e }

  /** The creator's claim is refused only when there is nothing left to claim. */
  lemma CreatorSettles(e: Entry)
    requires e.campaign.hasRevenueSharing && e.campaign.revenueShare <= BPS
    requires FitsI128(e.revenue.pool * (BPS - e.campaign.revenueShare))
    requires e.revenue.creatorClaimed <= CreatorShare(e.revenue.pool, e.campaign.revenueShare)
    ensures CreatorClaim(e).Ok? <==> e.revenue.creatorClaimed < CreatorShare(e.revenue.pool, e.campaign.revenueShare)
    ensures AfterCreator(e).revenue == e.revenue.(creatorClaimed := CreatorShare(e.revenue.pool, e.campaign.revenueShare))
  {
    hide CreatorShare;
  }

  lemma RoundSize(e: Entry, a: Audit)
    requires RevenueReady(e, a)
    ensures |e.ledger.contributions.Keys| == e.ledger.contributorCount && 0 < e.ledger.contributorCount
  {
    assert |e.ledger.contributions.Keys| == |e.ledger.contributions|;
    assert e.ledger.contributions.Keys != {};
  }

  lemma RoundLeavesCreator(e: Entry, a: Audit, e1: Entry, order: seq<Address>, who: Address)
    requires RevenueReady(e, a) && FreshRound(e) && RoundFits(e) && Midway(e, e1, order)
    requires AfterClaim(e1, who).revenue.distributed == ContributorShare(e.revenue.pool, e.campaign.revenueShare)
    ensures HeldRevenue(AfterCreator(AfterClaim(e1, who)).revenue) == 0
  {
    hide DueTo, Claimable, LedgerInv, ClaimsInv, CreatorShare, CreatorClaim;
    CreatorSettles(AfterClaim(e1, who));
  }

  /** A contributor whose share truncates to zero cannot claim, whoever has claimed before. */
  lemma ZeroShareCannotClaim(e: Entry, who: Address)
    requires DueTo(e, who) == 0 && 0 <= Get(e.revenue.claimed, who)
    ensures Claim(e, who).Err?
  {
    hide Due;
  }

  /** A round can be completed exactly when every truncated share is at least 1. */
  lemma RoundCompletesIff(e: Entry, a: Audit, order: seq<Address>)
    requires RevenueReady(e, a) && FreshRound(e) && RoundFits(e) && Enumerates(order, e.ledger.contributions)
    ensures ClaimEach(e, order).Ok? <==> forall who | who in e.ledger.contributions :: 0 < DueTo(e, who)
  {
    hide RevenueReady, Claim, FreshRound, RoundFits, DueTo, ClaimEach;
    if forall who | who in e.ledger.contributions :: 0 < DueTo(e, who) {
      RoundExact(e, a, order);
    } else if ClaimEach(e, order).Ok? {
      forall who | who in e.ledger.contributions
        ensures 0 < DueTo(e, who)
      {
        FreshNonNegative(e);
        ClaimedHadShare(e, order, who);
      }
    }
  }

  lemma FreshNonNegative(e: Entry)
    requires FreshRound(e)
    ensures forall who :: 0 <= Get(e.revenue.claimed, who)
  {
  }

  lemma ClaimKeepsShares(e: Entry, who: Address)
    requires Claim(e, who).Ok? && forall x :: 0 <= Get(e.revenue.claimed, x)
    ensures 0 < DueTo(e, who)
    ensures var e' := Claim(e, who).value;
            && (forall x :: DueTo(e', x) == DueTo(e, x))
            && (forall x :: 0 <= Get(e'.revenue.claimed, x))
  {
    hide Due, ContributorShare, DueFits, ClaimFits;
    assert 0 < Claimable(e, who);
    var e' := Claim(e, who).value;
    forall x
      ensures 0 <= Get(e'.revenue.claimed, x)
    {
      assert 0 <= Get(e.revenue.claimed, x);
    }
  }

  lemma {:induction false} ClaimedHadShare(e: Entry, order: seq<Address>, who: Address)
    requires ClaimEach(e, order).Ok? && forall x :: 0 <= Get(e.revenue.claimed, x)
    ensures who in order ==> 0 < DueTo(e, who)
    ensures forall x :: DueTo(ClaimEach(e, order).value, x) == DueTo(e, x)
    ensures forall x :: 0 <= Get(ClaimEach(e, order).value.revenue.claimed, x)
    decreases |order|
  {
    hide Claim, DueTo;
    if order != [] {
      var front, last := order[..|order| - 1], order[|order| - 1];
      ClaimedHadShare(e, front, who);
      ClaimKeepsShares(ClaimEach(e, front).value, last);
      assert order == front + [last];
    }
  }

  // ---- What is still owed -------------------------------------------------------------------

  function Outstanding(e: Entry): map<Address, int> {
    map who | who in e.ledger.contributions ::
      if DueTo(e, who) <= Get(e.revenue.claimed, who) then 0 else DueTo(e, who) - Get(e.revenue.claimed, who)
  }

  /** Held revenue less everything that could still be claimed at the present pool. */
  ghost function Slack(e: Entry): int {
    HeldRevenue(e.revenue) - Sum(Outstanding(e)) - (CreatorShare(e.revenue.pool, e.campaign.revenueShare) - e.revenue.creatorClaimed)
  }

  /** A claim settles the claimant and nobody else. */
  lemma ClaimSettles(e: Entry, who: Address)
    requires who in e.ledger.contributions && 0 < DueTo(e, who) - Get(e.revenue.claimed, who)
    ensures Outstanding(AfterClaim(e, who)) == Outstanding(e)[who := 0]
    ensures Sum(Outstanding(AfterClaim(e, who))) == Sum(Outstanding(e)) - (DueTo(e, who) - Get(e.revenue.claimed, who))
  {
    hide Due, ContributorShare;
    var m := Outstanding(e);
    SumPut(m, who, 0);
    assert Outstanding(AfterClaim(e, who)) == m[who := 0];
  }

  /** An ordinary claim leaves the slack as it was: what it pays is what it was owed. */
  lemma ClaimKeepsSlack(e: Entry, who: Address)
    requires who in e.ledger.contributions && 0 < DueTo(e, who) - Get(e.revenue.claimed, who)
    requires !LastClaimant(e, who)
    ensures Slack(AfterClaim(e, who)) == Slack(e)
  {
    hide Due, Outstanding, CreatorShare;
    ClaimSettles(e, who);
  }

  /** So does the creator's claim. */
  lemma CreatorClaimKeepsSlack(e: Entry)
    requires CreatorClaim(e).Ok?
    ensures Slack(CreatorClaim(e).value) == Slack(e)
  {
    hide Due, CreatorShare;
    assert Outstanding(CreatorClaim(e).value) == Outstanding(e);
  }

  /** Before the last claimant every outstanding claim is covered. */
  lemma CoveredBeforeSweep(e: Entry, a: Audit)
    requires RevenueReady(e, a) && a.sweeper.None?
    ensures 0 <= Slack(e)
  {
    AllDueWithin(e, a);
    forall who | who in e.revenue.claimed
      ensures e.revenue.claimed[who] <= DueTo(e, who)
    {
      PathIndependence(e, a, who);
    }
    OutstandingSum(e, a);
  }

  lemma OutstandingSum(e: Entry, a: Audit)
    requires RevenueReady(e, a)
    requires forall who | who in e.revenue.claimed :: e.revenue.claimed[who] <= DueTo(e, who)
    requires forall who | who in AllDue(e) :: 0 <= AllDue(e)[who]
    ensures Sum(Outstanding(e)) == Sum(AllDue(e)) - e.revenue.distributed
  {
    hide Due;
    SumDifference(AllDue(e), e.revenue.claimed, Outstanding(e));
  }

  lemma {:induction false} SumDifference(m: map<Address, int>, n: map<Address, int>, d: map<Address, int>)
    requires n.Keys <= m.Keys && d.Keys == m.Keys
    requires forall k | k in m :: d[k] == m[k] - Get(n, k)
    ensures Sum(d) == Sum(m) - Sum(n)
    decreases |m|
  {
    if m == map[] {
      assert n == map[] && d == map[];
    } else {
      var k :| k in m;
      SumRemove(m, k);
      SumRemove(d, k);
      if k in n { SumRemove(n, k); } else { assert n - {k} == n; }
      SumDifference(m - {k}, n - {k}, d - {k});
    }
  }

  /**
   The last claimant takes everything undistributed, including what earlier claimants became entitled to by
   later deposits. Afterwards the contract still covers every claim on the pool if and only if at that moment
   nobody else had anything to claim.
   */
  lemma SweepCoversIff(e: Entry, a: Audit, who: Address)
    requires RevenueReady(e, a) && Claim(e, who).Ok? && LastClaimant(e, who)
    ensures Slack(Claim(e, who).value) == -Sum(Outstanding(e)[who := 0])
    ensures 0 <= Slack(Claim(e, who).value) <==> forall x | x in e.ledger.contributions && x != who :: Outstanding(e)[x] == 0
  {
    hide Due, Outstanding, RevenueReady, LastClaimant;
    LastClaimantSweeps(e, a, who);
    ClaimParts(e, who);
    ClaimSettles(e, who);
    OutstandingNonNegative(e);
    var rest := Outstanding(e)[who := 0];
    ZeroSumIff(rest);
    assert forall x | x in e.ledger.contributions && x != who :: rest[x] == Outstanding(e)[x];
    if forall x | x in e.ledger.contributions && x != who :: Outstanding(e)[x] == 0 {
      assert forall x | x in rest :: rest[x] == 0;
    }
  }

  /** What each contributor has had, or will have had after claiming at the present pool. */
  function Entitled(e: Entry): map<Address, int> {
    map who | who in e.ledger.contributions ::
      if DueTo(e, who) <= Get(e.revenue.claimed, who) then Get(e.revenue.claimed, who) else DueTo(e, who)
  }

  lemma SlackIs(e: Entry, a: Audit)
    requires RevenueReady(e, a)
    ensures Slack(e) == ContributorShare(e.revenue.pool, e.campaign.revenueShare) - Sum(Entitled(e))
  {
    hide Due, Sum, LedgerInv, ClaimsInv, CreatorShare;
    SumDifference(Entitled(e), e.revenue.claimed, Outstanding(e));
  }

  /** What a claimant has had beyond their share of the present pool. */
  function Excess(e: Entry, w: Address): int { Get(e.revenue.claimed, w) - DueTo(e, w) }

  /** What truncation leaves of the contributors' side when everybody gets their share of the present pool. */
  ghost function Dust(e: Entry): int {
    ContributorShare(e.revenue.pool, e.campaign.revenueShare) - Sum(AllDue(e))
  }

  /** No claimant has had more beyond their share than truncation leaves over. */
  ghost predicate WithinDust(e: Entry) { forall w | w in e.revenue.claimed :: Excess(e, w) <= Dust(e) }

  /**
   Held revenue covers every open claim if and only if no claimant has had more beyond their share of the present pool
   than the rounding dust of the present pool.
   */
  lemma CoversIff(e: Entry, a: Audit)
    requires RevenueReady(e, a)
    ensures 0 <= Slack(e) <==> WithinDust(e)
    ensures a.sweeper.None? ==> WithinDust(e)
  {
    hide Slack, Excess, Dust;
    OthersWithin(e, a);
    if a.sweeper.None? {
      CoveredBeforeSweep(e, a);
    } else {
      SlackAfterSweep(e, a, a.sweeper.value);
    }
  }

  /** Only the last claimant can have had more than their present share. */
  lemma OthersWithin(e: Entry, a: Audit)
    requires RevenueReady(e, a)
    ensures forall w | w in e.revenue.claimed && a.sweeper != Some(w) :: Excess(e, w) <= Dust(e)
    ensures a.sweeper.Some? ==> a.sweeper.value in e.revenue.claimed
  {
    AllDueWithin(e, a);
    forall w | w in e.revenue.claimed && a.sweeper != Some(w)
      ensures Excess(e, w) <= 0
    {
      PathIndependence(e, a, w);
    }
  }

  lemma SlackAfterSweep(e: Entry, a: Audit, w: Address)
    requires RevenueReady(e, a) && a.sweeper == Some(w)
    ensures 0 <= Slack(e) <==> Excess(e, w) <= Dust(e)
  {
    AllDueWithin(e, a);
    SlackIs(e, a);
    EntitledAfterSweep(e, a, w);
    SumPut(AllDue(e), w, Get(e.revenue.claimed, w));
  }

  /** Nobody but the last claimant has had more than their present share. */
  lemma EntitledAfterSweep(e: Entry, a: Audit, w: Address)
    requires RevenueReady(e, a) && a.sweeper == Some(w)
    ensures w in e.ledger.contributions && w in AllDue(e)
    ensures AllDue(e)[w] == DueTo(e, w)
    ensures Entitled(e) == if Excess(e, w) <= 0 then AllDue(e) else AllDue(e)[w := Get(e.revenue.claimed, w)]
  {
    hide Due;
    AllDueIs(e);
    AllDueWithin(e, a);
    forall x | x in e.ledger.contributions && x != w
      ensures Entitled(e)[x] == AllDue(e)[x]
    {
      if x in e.revenue.claimed {
        PathIndependence(e, a, x);
      }
    }
  }

  lemma ClaimParts(e: Entry, who: Address)
    requires Claim(e, who).Ok?
    ensures who in e.ledger.contributions && 0 < DueTo(e, who) - Get(e.revenue.claimed, who)
    ensures Claim(e, who) == Ok(AfterClaim(e, who))
    ensures ContributorShare(e.revenue.pool, e.campaign.revenueShare) + CreatorShare(e.revenue.pool, e.campaign.revenueShare)
            == e.revenue.pool
  {
    hide Due, DueFits, ClaimFits, CreatorShare;
  }

  lemma OutstandingNonNegative(e: Entry)
    ensures Outstanding(e).Keys == e.ledger.contributions.Keys
    ensures forall x | x in Outstanding(e) :: 0 <= Outstanding(e)[x]
  {
    hide Due;
  }

  lemma ZeroSumIff(m: map<Address, int>)
    requires forall x | x in m :: 0 <= m[x]
    ensures 0 <= Sum(m)
    ensures Sum(m) == 0 <==> forall x | x in m :: m[x] == 0
  {
    SumNonNegative(m);
    if forall x | x in m :: m[x] == 0 {
      SumMono(m, map x | x in m :: 0);
      AllZero(map x | x in m :: 0);
    } else {
      var x :| x in m && m[x] != 0;
      SumAtLeast(m, x);
    }
  }

  lemma {:induction false} AllZero(m: map<Address, int>)
    requires forall x | x in m :: m[x] == 0
    ensures Sum(m) == 0
    decreases |m|
  {
    if m != map[] {
      var x :| x in m;
      SumRemove(m, x);
      AllZero(m - {x});
    }
  }
}
