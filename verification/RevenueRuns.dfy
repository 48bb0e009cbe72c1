/** A whole round of revenue claims as calls on the contract: every contributor in some order, then the creator. */
module RevenueRuns {
  import opened Types
  import opened State
  import opened RevenueSharing
  import opened Invariants
  import opened Compose
  import opened ContributionProofs
  import opened RevenueTheorems
  import opened EscrowTheorems
  import opened Solvency
  import opened Runs
  import RevenueProofs

  /** The contributors' claims in the given order. */
  function RoundCalls(id: nat, order: seq<Address>): (ops: seq<Op>)
    ensures |ops| == |order| && forall i | 0 <= i < |order| :: ops[i] == DoClaimRevenue(id, order[i])
  {
    seq(|order|, i requires 0 <= i < |order| => DoClaimRevenue(id, order[i]))
  }

  /** A withdrawn campaign of which nobody has claimed yet, the token's campaigns clean and the amounts inside i128. */
  ghost predicate ReadyToShare(s: State, id: nat, order: seq<Address>) {
    && Inv(s) && id in s.entries && !s.paused && CleanToken(s, s.entries[id].terms.token)
    && FreshRound(s.entries[id]) && RoundFits(s.entries[id])
    && s.entries[id].ledger.contributions != map[] && Enumerates(order, s.entries[id].ledger.contributions)
  }

  /** After the first `n` claims the campaign stands where those claims lead, and the token's campaigns are clean. */
  ghost predicate InRound(s: State, id: nat, order: seq<Address>, n: nat)
    requires id in s.entries && n <= |order|
  {
    var t := At(s, RoundCalls(id, order), n);
    && Inv(t) && id in t.entries && !t.paused && CleanToken(t, t.entries[id].terms.token)
    && Ok(t.entries[id]) == ClaimEach(s.entries[id], order[..n])
  }

  // ---- One claim ----------------------------------------------------------------------------

  /** A contributor's claim is paid exactly when the campaign's books accept it. */
  lemma ClaimPaidIff(s: State, id: nat, who: Address)
    requires Inv(s) && id in s.entries && !s.paused && CleanToken(s, s.entries[id].terms.token) && CanSign(who)
    ensures Call(s, DoClaimRevenue(id, who)) == ClaimRevenue(s, id, who)
    ensures ClaimRevenue(s, id, who).Ok? <==> Claim(s.entries[id], who).Ok?
    ensures ClaimRevenue(s, id, who).Ok? ==>
              var e, a, s' := s.entries[id], AuditOf(s, id), ClaimRevenue(s, id, who).value;
              && s'.entries == s.entries[id := Claim(e, who).value] && s'.paused == s.paused
              && s'.audits == s.audits[id := AuditClaim(a, e, who)]
  {
    hide Inv, Claim, CleanToken, Claimable, CallEscrow, CallVote, CallRegistry, CallSetting, AuditClaim;
    RevenueNeverShort(s, id, who);
  }

  lemma ClaimKeepsInv(s: State, id: nat, who: Address)
    requires Inv(s) && ClaimRevenue(s, id, who).Ok?
    ensures Inv(ClaimRevenue(s, id, who).value)
  {
    hide Inv, Evolves, Surplus, ClaimRevenue;
    RevenueProofs.ClaimRevenueSound(s, id, who);
  }

  lemma CleanAfterClaim(s: State, id: nat, who: Address, s': State)
    requires id in s.entries && CleanToken(s, s.entries[id].terms.token) && Claim(s.entries[id], who).Ok?
    requires s'.entries == s.entries[id := Claim(s.entries[id], who).value]
    requires s'.audits == s.audits[id := AuditClaim(AuditOf(s, id), s.entries[id], who)]
    requires WithinDust(s'.entries[id])
    ensures CleanToken(s', s'.entries[id].terms.token)
  {
    hide WithinDust, Claimable, LastClaimant;
    ClaimParts(s.entries[id], who);
    hide Claim;
    assert Clean(s.entries[id], AuditOf(s, id));
    assert Clean(s'.entries[id], AuditOf(s', id));
    forall x | x in s'.entries && s'.entries[x].terms.token == s'.entries[id].terms.token
      ensures Clean(s'.entries[x], AuditOf(s', x))
    {
      if x != id {
        assert s'.entries[x] == s.entries[x] && AuditOf(s', x) == AuditOf(s, x);
      }
    }
  }

  // ---- The dust through a round -------------------------------------------------------------

  /** Short of the last claim nobody has had more than their share. */
  lemma MidwayWithin(e: Entry, e1: Entry, a1: Audit, order: seq<Address>)
    requires Midway(e, e1, order) && RevenueReady(e1, a1)
    ensures WithinDust(e1)
  {
    hide Due, ContributorShare, LedgerInv, RevenueInv;
    AllDueWithin(e1, a1);
    forall w | w in e1.revenue.claimed
      ensures Excess(e1, w) == 0
    {
    }
  }

  /** The last claim takes what truncation leaves and no more: everybody else has had their share. */
  lemma SweepWithin(e: Entry, e1: Entry, a1: Audit, order: seq<Address>, who: Address, a2: Audit)
    requires Midway(e, e1, order) && RevenueReady(e1, a1) && who !in order && Claim(e1, who).Ok? && LastClaimant(e1, who)
    requires forall x | x in e1.ledger.contributions :: x in order || x == who
    requires RevenueReady(Claim(e1, who).value, a2)
    ensures WithinDust(Claim(e1, who).value)
  {
    hide Due, DueTo, LedgerInv, RevenueInv, Claim, WithinDust, Slack, LastClaimant, RevenueReady;
    SweepCoversIff(e1, a1, who);
    OutstandingNonNegative(e1);
    forall x | x in e1.ledger.contributions && x != who
      ensures Outstanding(e1)[x] == 0
    {
      SettledOutstanding(e, e1, order, x);
    }
    CoversIff(Claim(e1, who).value, a2);
  }

  lemma SettledOutstanding(e: Entry, e1: Entry, order: seq<Address>, x: Address)
    requires Midway(e, e1, order) && x in order && x in e1.ledger.contributions
    ensures x in Outstanding(e1) && Outstanding(e1)[x] == 0
  {
    hide Due;
  }

  // ---- The round ----------------------------------------------------------------------------

  lemma ClaimantsSign(s: State, id: nat, who: Address)
    requires Inv(s) && id in s.entries && who in s.entries[id].ledger.contributions
    ensures CanSign(who)
  {
    hide Inv, RevenueInv, PaidInv, VotesInv, RefundInv, MilestoneInv;
    FromInv(s, id);
  }

  /** The books after some of the claims: midway, if more claims are to come. */
  lemma RoundStands(s: State, id: nat, order: seq<Address>, n: nat)
    requires ReadyToShare(s, id, order) && id in s.entries && n < |order| && ClaimEach(s.entries[id], order[..n]).Ok?
    ensures Midway(s.entries[id], ClaimEach(s.entries[id], order[..n]).value, order[..n])
    ensures |order| == s.entries[id].ledger.contributorCount
  {
    hide Inv, CleanToken, RevenueReady, Midway, DueTo, RoundFits, FreshRound, Claim;
    var e, a, front := s.entries[id], AuditOf(s, id), order[..n];
    Ready(s, id);
    RoundSize(e, a);
    OrderLength(order, e.ledger.contributions.Keys);
    FreshNonNegative(e);
    forall who | who in front
      ensures 0 < DueTo(e, who) && who in order
    {
      ClaimedHadShare(e, front, who);
    }
    RoundProgress(e, a, front);
  }

  lemma NextClaimSucceedsIff(s: State, id: nat, order: seq<Address>, n: nat)
    requires ReadyToShare(s, id, order) && id in s.entries && n < |order| && InRound(s, id, order, n)
    ensures Succeeds(s, RoundCalls(id, order), n) <==> ClaimEach(s.entries[id], order[..n + 1]).Ok?
  {
    hide Inv, Run, Call, Claim, CleanToken, FreshRound, RoundFits;
    var t := At(s, RoundCalls(id, order), n);
    assert order[..n + 1][..n] == order[..n];
    assert order[n] in order;
    ClaimantsSign(s, id, order[n]);
    ClaimPaidIff(t, id, order[n]);
  }

  lemma NextInRound(s: State, id: nat, order: seq<Address>, n: nat)
    requires ReadyToShare(s, id, order) && id in s.entries && n < |order| && InRound(s, id, order, n)
    requires Succeeds(s, RoundCalls(id, order), n)
    ensures InRound(s, id, order, n + 1)
  {
    hide Inv, Run, Call, Claim, ClaimRevenue, CleanToken, FreshRound, RoundFits, AuditClaim, WithinDust;
    var ops := RoundCalls(id, order);
    var t, t' := At(s, ops, n), At(s, ops, n + 1);
    NextClaimSucceedsIff(s, id, order, n);
    assert order[..n + 1][..n] == order[..n];
    assert order[n] in order;
    ClaimantsSign(s, id, order[n]);
    ClaimPaidIff(t, id, order[n]);
    AtNext(s, ops, n);
    ClaimKeepsInv(t, id, order[n]);
    StepWithin(s, id, order, n, t, t');
    CleanAfterClaim(t, id, order[n], t');
  }

  lemma StepWithin(s: State, id: nat, order: seq<Address>, n: nat, t: State, t': State)
    requires ReadyToShare(s, id, order) && id in s.entries && n < |order|
    requires Inv(t) && Inv(t') && id in t.entries && id in t'.entries
    requires Ok(t.entries[id]) == ClaimEach(s.entries[id], order[..n])
    requires Claim(t.entries[id], order[n]).Ok? && t'.entries[id] == Claim(t.entries[id], order[n]).value
    requires Ok(t'.entries[id]) == ClaimEach(s.entries[id], order[..n + 1])
    ensures WithinDust(t'.entries[id])
  {
    hide Inv, Claim, CleanToken, FreshRound, RoundFits, WithinDust, RevenueReady, Midway, LastClaimant, ClaimEach;
    var e, e1 := s.entries[id], t.entries[id];
    RoundStands(s, id, order, n);
    SameContributions(e, e1, order[..n]);
    Ready(t, id);
    ClaimParts(e1, order[n]);
    Ready(t', id);
    if n + 1 < |order| {
      RoundStands(s, id, order, n + 1);
      MidwayWithin(e, t'.entries[id], AuditOf(t', id), order[..n + 1]);
    } else {
      assert order[..n] + [order[n]] == order;
      MidwayFacts(e, e1, order[..n], order[n]);
      SweepWithin(e, e1, AuditOf(t, id), order[..n], order[n], AuditOf(t', id));
    }
  }

  lemma SameContributions(e: Entry, e1: Entry, order: seq<Address>)
    requires Midway(e, e1, order)
    ensures e1.ledger == e.ledger
  {
  }

  lemma {:induction false} RoundRuns(s: State, id: nat, order: seq<Address>, n: nat)
    requires ReadyToShare(s, id, order) && id in s.entries && n <= |order|
    ensures var done := forall i | 0 <= i < n :: Succeeds(s, RoundCalls(id, order), i);
            && (done <==> ClaimEach(s.entries[id], order[..n]).Ok?)
            && (done ==> InRound(s, id, order, n))
    decreases n
  {
    hide Inv, Run, Succeeds, ReadyToShare, InRound, Claim;
    if n == 0 {
      RoundOpens(s, id, order);
    } else {
      RoundRuns(s, id, order, n - 1);
      assert order[..n][..n - 1] == order[..n - 1];
      if ClaimEach(s.entries[id], order[..n - 1]).Ok? {
        NextClaimSucceedsIff(s, id, order, n - 1);
        if Succeeds(s, RoundCalls(id, order), n - 1) {
          NextInRound(s, id, order, n - 1);
        }
      }
    }
  }

  lemma RoundOpens(s: State, id: nat, order: seq<Address>)
    requires ReadyToShare(s, id, order) && id in s.entries
    ensures InRound(s, id, order, 0) && ClaimEach(s.entries[id], order[..0]).Ok?
  {
    hide Inv, FreshRound, RoundFits, CleanToken;
    assert RoundCalls(id, order)[..0] == [];
  }

  /** The creator's claim is paid when there is anything to claim, and leaves the books as `AfterCreator` says. */
  lemma CreatorPaidIff(s: State, id: nat)
    requires Inv(s) && id in s.entries && !s.paused && CleanToken(s, s.entries[id].terms.token)
    ensures Call(s, DoClaimCreatorRevenue(id)) == ClaimCreatorRevenue(s, id)
    ensures ClaimCreatorRevenue(s, id).Ok? <==> CreatorClaim(s.entries[id]).Ok?
    ensures id in Next(s, DoClaimCreatorRevenue(id)).entries
    ensures Next(s, DoClaimCreatorRevenue(id)).entries[id] == AfterCreator(s.entries[id])
  {
    hide Inv, CreatorClaim, CleanToken, CallEscrow, CallVote, CallRegistry, CallSetting;
    RevenueNeverShort(s, id, s.entries[id].campaign.creator);
    CreatorSigns(s, id);
  }

  lemma CreatorSigns(s: State, id: nat)
    requires Inv(s) && id in s.entries
    ensures CanSign(s.entries[id].campaign.creator)
  {
    hide Inv, LedgerInv, RevenueInv, PaidInv, VotesInv, RefundInv, MilestoneInv;
    FromInv(s, id);
  }

  /**
   A round on the contract: with no deposit after the first claim all contributors are paid, in any order, if and only if
   every truncated share is at least 1. Then, once the creator has claimed too, nothing of the pool is held.
   */
  lemma RoundOnRunIff(s: State, id: nat, order: seq<Address>)
    requires ReadyToShare(s, id, order) && id in s.entries
    ensures var ops, e := RoundCalls(id, order), s.entries[id];
            && ((forall i | 0 <= i < |order| :: Succeeds(s, ops, i)) <==> forall who | who in e.ledger.contributions :: 0 < DueTo(e, who))
            && ((forall i | 0 <= i < |order| :: Succeeds(s, ops, i)) ==>
                  var t := Run(s, ops);
                  && id in t.entries
                  && t.entries[id].revenue.distributed == ContributorShare(e.revenue.pool, e.campaign.revenueShare)
                  && var t' := Next(t, DoClaimCreatorRevenue(id));
                     id in t'.entries && HeldRevenue(t'.entries[id].revenue) == 0)
  {
    hide Inv, Run, Next, Succeeds, InRound, Claim, CreatorClaim, RevenueReady, FreshRound, RoundFits, CleanToken, DueTo, ContributorShare, HeldRevenue;
    var e := s.entries[id];
    RoundRuns(s, id, order, |order|);
    assert order[..|order|] == order;
    Ready(s, id);
    RoundCompletesIff(e, AuditOf(s, id), order);
    if forall i | 0 <= i < |order| :: Succeeds(s, RoundCalls(id, order), i) {
      RoundExact(e, AuditOf(s, id), order);
      RoundEnds(s, id, order);
      CreatorPaidIff(Run(s, RoundCalls(id, order)), id);
    }
  }

  lemma RoundEnds(s: State, id: nat, order: seq<Address>)
    requires id in s.entries && InRound(s, id, order, |order|)
    ensures var t := Run(s, RoundCalls(id, order));
            && Inv(t) && id in t.entries && !t.paused && CleanToken(t, t.entries[id].terms.token)
            && Ok(t.entries[id]) == ClaimEach(s.entries[id], order)
  {
    hide Inv, Run, CleanToken, ClaimEach;
    assert order[..|order|] == order;
    assert RoundCalls(id, order)[..|order|] == RoundCalls(id, order);
  }
}
