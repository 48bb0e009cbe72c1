/** Revenue calls keep the invariant, and what the truncated shares of a pool add up to. */
module RevenueProofs {
  import opened Types
  import opened State
  import opened Sums
  import opened Contributions
  import opened Payouts
  import opened RevenueSharing
  import opened Invariants
  import opened Compose
  import Governance
  import opened ContributionProofs

  // ---- Shares -------------------------------------------------------------------------------

  lemma MulMono(x: int, y: int, k: int)
    requires x <= y && 0 <= k
    ensures x * k <= y * k
  {
  }

  lemma Cancel(x: int, y: int, k: int)
    requires x * k < y * k && 0 < k
    ensures x < y
  {
  }

  lemma CreatorShareMono(p: int, q: int, share: nat)
    requires 0 <= p <= q && share <= BPS
    ensures 0 <= CreatorShare(p, share) <= CreatorShare(q, share) <= q
  {
    MulMono(p, q, BPS - share);
    assert 0 <= p * (BPS - share);
    assert q * (BPS - share) <= q * BPS;
  }

  /** The contributors' side is their rate of the pool, rounded up. */
  lemma ContributorShareIsCeiling(pool: int, share: nat)
    requires 0 <= pool && share <= BPS
    ensures (ContributorShare(pool, share) - 1) * BPS < pool * share <= ContributorShare(pool, share) * BPS
  {
    assert pool * (BPS - share) == pool * BPS - pool * share;
  }

  lemma DivBound(x: int, d: int)
    requires 0 <= x && 0 < d
    ensures 0 <= x / d && x / d * d <= x < (x / d + 1) * d
  {
  }

  lemma DivMono(x: int, y: int, d: int)
    requires 0 <= x <= y && 0 < d
    ensures x / d <= y / d
  {
    DivBound(x, d);
    DivBound(y, d);
    var p, q := x / d, y / d + 1;
    assert p * d < q * d;
    Cancel(p, q, d);
  }

  lemma DueMono(c: int, p: int, q: int, share: nat, effective: int)
    requires 0 <= c && 0 <= p <= q && 0 < effective
    ensures 0 <= Due(c, p, share, effective) <= Due(c, q, share, effective)
  {
    var x, y := c * p * share, c * q * share;
    assert 0 <= c * p <= c * q;
    MulMono(c * p, c * q, share);
    assert 0 <= x <= y;
    DivMono(x, y, effective);
    DivBound(x, effective);
    DivMono(x / effective, y / effective, BPS);
    DivBound(x / effective, BPS);
  }

  lemma DueBound(c: int, p: int, share: nat, effective: int)
    requires 0 <= c && 0 <= p && 0 < effective
    ensures Due(c, p, share, effective) * (BPS * effective) <= c * (p * share)
  {
    var x := c * p * share;
    assert 0 <= c * p;
    assert 0 <= x && x == c * (p * share);
    var n := x / effective;
    DivBound(x, effective);
    assert n / BPS * BPS <= n;
    MulMono(n / BPS * BPS, n, effective);
    assert n / BPS * (BPS * effective) == n / BPS * BPS * effective;
  }

  function Dues(contributions: map<Address, int>, pool: int, share: nat, effective: int): map<Address, int> {
    map who | who in contributions :: Due(contributions[who], pool, share, effective)
  }

  lemma AddScaled(d: int, r: int, c: int, rest: int, k: int, p: int)
    requires d * k <= c * p && r * k <= rest * p
    ensures (d + r) * k <= (c + rest) * p
  {
    assert (d + r) * k == d * k + r * k;
    assert (c + rest) * p == c * p + rest * p;
  }

  lemma {:induction false} DuesScaled(m: map<Address, int>, pool: int, share: nat, effective: int)
    requires forall who | who in m :: 0 <= m[who]
    requires 0 <= pool && 0 < effective
    ensures Sum(Dues(m, pool, share, effective)) * (BPS * effective) <= Sum(m) * (pool * share)
    decreases |m|
  {
    hide Due;
    if m == map[] {
      assert Dues(m, pool, share, effective) == map[];
    } else {
      var who :| who in m;
      DuesScaled(m - {who}, pool, share, effective);
      DuesScaledStep(m, who, pool, share, effective);
    }
  }

  lemma DuesScaledStep(m: map<Address, int>, who: Address, pool: int, share: nat, effective: int)
    requires who in m && 0 <= m[who] && 0 <= pool && 0 < effective
    requires Sum(Dues(m - {who}, pool, share, effective)) * (BPS * effective) <= Sum(m - {who}) * (pool * share)
    ensures Sum(Dues(m, pool, share, effective)) * (BPS * effective) <= Sum(m) * (pool * share)
  {
    hide Due, Sum;
    var rest := m - {who};
    SumRemove(m, who);
    SumRemove(Dues(m, pool, share, effective), who);
    assert Dues(m, pool, share, effective) - {who} == Dues(rest, pool, share, effective);
    DueBound(m[who], pool, share, effective);
    AddScaled(Due(m[who], pool, share, effective), Sum(Dues(rest, pool, share, effective)), m[who], Sum(rest),
              BPS * effective, pool * share);
  }

  lemma Descale(total: int, effective: int, p: int)
    requires total * (BPS * effective) <= effective * p && 0 < effective
    ensures total * BPS <= p
  {
    assert total * (BPS * effective) == total * BPS * effective;
    assert (p + 1) * effective == effective * p + effective;
    Cancel(total * BPS, p + 1, effective);
  }

  /** The truncated shares of a pool never exceed the contributors' side of it. */
  lemma DuesWithin(m: map<Address, int>, pool: int, share: nat)
    requires forall who | who in m :: 0 <= m[who]
    requires 0 <= pool && 0 < Sum(m) && share <= BPS
    ensures Sum(Dues(m, pool, share, Sum(m))) <= ContributorShare(pool, share)
  {
    hide Due, ContributorShare;
    DuesScaled(m, pool, share, Sum(m));
    Descale(Sum(Dues(m, pool, share, Sum(m))), Sum(m), pool * share);
    ContributorShareIsCeiling(pool, share);
  }

  // ---- What a claim keeps -------------------------------------------------------------------

  lemma EffectivePositive(c: Campaign, l: Ledger, who: Address)
    requires LedgerInv(c, l) && who in l.contributions
    ensures 0 < l.contributions[who] <= c.effectiveRaised
  {
    SumAtLeast(l.contributions, who);
  }

  lemma LastClaimsAll(e: Entry, a: Audit, who: Address)
    requires LedgerInv(e.campaign, e.ledger) && RevenueInv(e.campaign, e.ledger, e.revenue, a)
    requires LastClaimant(e, who) && who in e.ledger.contributions
    ensures e.revenue.claimed.Keys + {who} == e.ledger.contributions.Keys
    ensures who !in e.revenue.claimed && a.sweeper.None?
  {
    var keys, all := e.revenue.claimed.Keys, e.ledger.contributions.Keys;
    assert who !in keys;
    assert keys <= all - {who};
    assert |all| == |e.ledger.contributions| && |keys| == |e.revenue.claimed|;
    if keys != all - {who} {
      var x :| x in all - {who} && x !in keys;
      assert keys <= all - {who} - {x};
      SubsetSize(keys, all - {who} - {x});
      assert false;
    }
  }

  lemma {:induction false} SubsetSize(x: set<Address>, y: set<Address>)
    requires x <= y
    ensures |x| <= |y|
    decreases |x|
  {
    if x != {} {
      var k :| k in x;
      SubsetSize(x - {k}, y - {k});
    }
  }

  lemma NotLastClaims(e: Entry, a: Audit, who: Address)
    requires LedgerInv(e.campaign, e.ledger) && RevenueInv(e.campaign, e.ledger, e.revenue, a)
    requires !LastClaimant(e, who) && who in e.ledger.contributions
    ensures who !in e.revenue.claimed ==> a.sweeper.None? && e.revenue.claimants + 1 < e.ledger.contributorCount
  {
    if who !in e.revenue.claimed {
      assert who in e.ledger.contributions.Keys;
      assert |e.ledger.contributions.Keys| == |e.ledger.contributions|;
    }
  }

  lemma ClaimKeepsClaims(e: Entry, a: Audit, who: Address)
    requires ClaimsInv(e.campaign, e.ledger, e.revenue, a)
    requires 0 <= e.revenue.pool && 0 <= Get(e.revenue.claimed, who)
    requires LastClaimant(e, who) ==> a.sweeper.None?
    requires 0 < DueTo(e, who) - Get(e.revenue.claimed, who)
    ensures ClaimsInv(e.campaign, e.ledger, AfterClaim(e, who).revenue, AuditClaim(a, e, who))
    ensures 0 < Claimable(e, who)
  {
    hide Due, ContributorShare, LastClaimant;
  }

  ghost predicate CanClaim(e: Entry, a: Audit, who: Address) {
    && LedgerInv(e.campaign, e.ledger)
    && RevenueInv(e.campaign, e.ledger, e.revenue, a)
    && who in e.ledger.contributions && e.campaign.fundsWithdrawn
    && 0 < DueTo(e, who) - Get(e.revenue.claimed, who)
  }

  lemma LastClaimInv(e: Entry, a: Audit, who: Address)
    requires CanClaim(e, a, who) && LastClaimant(e, who)
    ensures RevenueInv(e.campaign, e.ledger, AfterClaim(e, who).revenue, AuditClaim(a, e, who))
  {
    hide LedgerInv, Due, CreatorShare, ContributorShare, ClaimsInv, Claimable, DueTo;
    var r := e.revenue;
    SumPut(r.claimed, who, Get(r.claimed, who) + Claimable(e, who));
    LastClaimsAll(e, a, who);
    ClaimKeepsClaims(e, a, who);
  }

  lemma OtherClaimInv(e: Entry, a: Audit, who: Address)
    requires CanClaim(e, a, who) && !LastClaimant(e, who)
    ensures RevenueInv(e.campaign, e.ledger, AfterClaim(e, who).revenue, AuditClaim(a, e, who))
  {
    hide LedgerInv, Due, CreatorShare, ContributorShare, ClaimsInv, Claimable, DueTo, LastClaimant;
    var r := e.revenue;
    SumPut(r.claimed, who, Get(r.claimed, who) + Claimable(e, who));
    NotLastClaims(e, a, who);
    ClaimKeepsClaims(e, a, who);
  }

  lemma ClaimedRevenueInv(e: Entry, a: Audit, who: Address)
    requires CanClaim(e, a, who)
    ensures RevenueInv(e.campaign, e.ledger, AfterClaim(e, who).revenue, AuditClaim(a, e, who))
  {
    hide CanClaim, RevenueInv, LastClaimant;
    if LastClaimant(e, who) {
      LastClaimInv(e, a, who);
    } else {
      OtherClaimInv(e, a, who);
    }
  }

  predicate CampaignShare(c: Campaign) {
    c.revenueShare <= REVENUE_SHARE_MAX_BPS && (c.hasRevenueSharing <==> 0 < c.revenueShare)
  }

  function WithRevenue(e: Entry, r: Revenue): Entry { e.(revenue := r) }

  /** Calls that change only a campaign's revenue record. */
  lemma RevenueSound(s: State, id: nat, r: Revenue, a: Audit, bank: Bank)
    requires Inv(s) && id in s.entries
    requires a == AuditOf(s, id).(claimPool := a.claimPool, sweeper := a.sweeper)
    requires RevenueInv(s.entries[id].campaign, s.entries[id].ledger, r, a)
    requires forall k | k in bank :: 0 <= bank[k]
    requires forall t: Address :: Balance(bank, t, SELF) - Balance(s.bank, t, SELF)
               == if t == s.entries[id].terms.token then HeldRevenue(r) - HeldRevenue(s.entries[id].revenue) else 0
    ensures Sound(s, Ok(Put(s, id, WithRevenue(s.entries[id], r), a).(bank := bank)))
  {
    hide Inv, Sound, CampaignInv, DurationInv, LedgerInv, MilestoneInv, PaidInv, RevenueInv, VotesInv, HeldRevenue,
         Governance.ValidConfig;
    var e := s.entries[id];
    FromInv(s, id);
    PaidKept(e.campaign, e.campaign, e.milestones, AuditOf(s, id), a);
    VotesKept(e.campaign, e.campaign, e.votes, AuditOf(s, id), a);
    assert HeldEscrow(WithRevenue(e, r), a) == HeldEscrow(e, AuditOf(s, id));
    forall t: Address
      ensures Balance(bank, t, SELF) - Balance(s.bank, t, SELF) == HeldIn(WithRevenue(e, r), a, t) - HeldIn(e, AuditOf(s, id), t)
    {
    }
    UpdateSound(s, id, WithRevenue(e, r), a, s.counters, s.totalRaised, bank);
  }

  lemma RevenueFrom(s: State, id: nat)
    requires Inv(s) && id in s.entries
    ensures LedgerInv(s.entries[id].campaign, s.entries[id].ledger)
    ensures RevenueInv(s.entries[id].campaign, s.entries[id].ledger, s.entries[id].revenue, AuditOf(s, id))
    ensures CampaignShare(s.entries[id].campaign)
    ensures CanSign(s.entries[id].campaign.creator)
    ensures forall k | k in s.bank :: 0 <= s.bank[k]
  {
    hide Inv, LedgerInv, MilestoneInv, PaidInv, RevenueInv, VotesInv;
    FromInv(s, id);
  }

  lemma ClaimRevenueSound(s: State, id: nat, who: Address)
    requires Inv(s)
    ensures Sound(s, ClaimRevenue(s, id, who))
  {
    hide Inv, Sound, LedgerInv, RevenueInv, Transfer, RevenueSharing.ClaimFits, DueFits, DueTo, Claimable, LastClaimant;
    var r := ClaimRevenue(s, id, who);
    if r.Err? {
      NothingSound(s, r.error);
    } else {
      RevenueFrom(s, id);
      var e, a := s.entries[id], AuditOf(s, id);
      assert e.campaign.fundsWithdrawn && 0 < DueTo(e, who) - Get(e.revenue.claimed, who);
      ClaimedRevenueInv(e, a, who);
      TransferMoves(s.bank, e.terms.token, SELF, who, Claimable(e, who));
      RevenueSound(s, id, AfterClaim(e, who).revenue, AuditClaim(a, e, who), r.value.bank);
    }
  }

  lemma DepositedInv(c: Campaign, l: Ledger, r: Revenue, a: Audit, amount: int)
    requires RevenueInv(c, l, r, a) && 0 < amount && c.fundsWithdrawn && c.hasRevenueSharing && c.revenueShare <= BPS
    ensures RevenueInv(c, l, r.(pool := r.pool + amount), a)
  {
    hide Due;
    CreatorShareMono(r.pool, r.pool + amount, c.revenueShare);
  }

  lemma DepositRevenueSound(s: State, id: nat, amount: int)
    requires Inv(s)
    ensures Sound(s, DepositRevenue(s, id, amount))
  {
    hide Inv, Sound, LedgerInv, RevenueInv, Transfer;
    var r := DepositRevenue(s, id, amount);
    if r.Err? {
      NothingSound(s, r.error);
    } else {
      RevenueFrom(s, id);
      var e, a := s.entries[id], AuditOf(s, id);
      DepositedInv(e.campaign, e.ledger, e.revenue, a, amount);
      TransferMoves(s.bank, e.terms.token, e.campaign.creator, SELF, amount);
      RevenueSound(s, id, e.revenue.(pool := e.revenue.pool + amount), a, r.value.bank);
    }
  }

  lemma CreatorClaimedInv(c: Campaign, l: Ledger, r: Revenue, a: Audit)
    requires RevenueInv(c, l, r, a) && c.revenueShare <= BPS
    ensures RevenueInv(c, l, r.(creatorClaimed := CreatorShare(r.pool, c.revenueShare)), a)
  {
    hide Due;
    CreatorShareMono(r.pool, r.pool, c.revenueShare);
  }

  lemma ClaimCreatorRevenueSound(s: State, id: nat)
    requires Inv(s)
    ensures Sound(s, ClaimCreatorRevenue(s, id))
  {
    hide Inv, Sound, LedgerInv, RevenueInv, Transfer, CreatorShare;
    var r := ClaimCreatorRevenue(s, id);
    if r.Err? {
      NothingSound(s, r.error);
    } else {
      RevenueFrom(s, id);
      var e, a := s.entries[id], AuditOf(s, id);
      var owed := CreatorShare(e.revenue.pool, e.campaign.revenueShare);
      CreatorClaimedInv(e.campaign, e.ledger, e.revenue, a);
      TransferMoves(s.bank, e.terms.token, SELF, e.campaign.creator, owed - e.revenue.creatorClaimed);
      RevenueSound(s, id, e.revenue.(creatorClaimed := owed), a, r.value.bank);
    }
  }
}
