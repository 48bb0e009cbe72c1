/** src/revenue.rs. */
module RevenueSharing {
  import opened Types
  import opened State
  import opened Payouts

  function CreatorShare(pool: int, share: nat): int { pool * (BPS - share) / BPS }

  /** What the contributors get between them: everything that is not the creator's. */
  function ContributorShare(pool: int, share: nat): int { pool - CreatorShare(pool, share) }

  /** A contributor's truncated share of `pool`; both divisions come last. */
  function Due(contribution: int, pool: int, share: nat, effective: int): int {
    if effective == 0 then 0 else contribution * pool * share / effective / BPS
  }

  function DueTo(e: Entry, who: Address): int {
    Due(Get(e.ledger.contributions, who), e.revenue.pool, e.campaign.revenueShare, e.campaign.effectiveRaised)
  }

  predicate DueFits(e: Entry, who: Address) {
    var n := Get(e.ledger.contributions, who) * e.revenue.pool;
    FitsI128(n) && FitsI128(n * e.campaign.revenueShare)
  }

  /** The branch that pays the remainder: a first claim that brings the claimants up to the contributors. */
  predicate LastClaimant(e: Entry, who: Address) {
    && Get(e.revenue.claimed, who) == 0
    && 0 < e.ledger.contributorCount <= e.revenue.claimants + 1
  }

  /** The amount one claim pays. */
  function Claimable(e: Entry, who: Address): int {
    var own := DueTo(e, who) - Get(e.revenue.claimed, who);
    var rest := ContributorShare(e.revenue.pool, e.campaign.revenueShare) - e.revenue.distributed;
    if LastClaimant(e, who) && own < rest then rest else own
  }

  predicate ClaimFits(e: Entry, who: Address) {
    && (Get(e.revenue.claimed, who) == 0 ==> e.revenue.claimants < U32_MAX)
    && (LastClaimant(e, who) ==> e.campaign.revenueShare <= BPS && FitsI128(e.revenue.pool * (BPS - e.campaign.revenueShare)))
    && FitsI128(Get(e.revenue.claimed, who) + Claimable(e, who))
    && FitsI128(e.revenue.distributed + Claimable(e, who))
  }

  function AfterClaim(e: Entry, who: Address): Entry {
    var r := e.revenue;
    e.(revenue := Revenue(
      r.pool,
      r.claimed[who := Get(r.claimed, who) + Claimable(e, who)],
      r.creatorClaimed,
      r.distributed + Claimable(e, who),
      if Get(r.claimed, who) == 0 then r.claimants + 1 else r.claimants))
  }

  function AuditClaim(a: Audit, e: Entry, who: Address): Audit {
    a.(claimPool := a.claimPool[who := e.revenue.pool],
       sweeper := if LastClaimant(e, who) then Some(who) else a.sweeper)
  }

  /** Everything `claim_revenue` does to the campaign before the tokens move. */
  function Claim(e: Entry, who: Address): Result<Entry> {
    if e.campaign.isCancelled then Err(CampaignNotActive)
    else
      :- Need(e.campaign.hasRevenueSharing, ValidationFailed);
      :- Need(e.campaign.fundsWithdrawn, ValidationFailed);
      :- Need(Get(e.ledger.contributions, who) != 0, ValidationFailed);
      :- Need(e.campaign.effectiveRaised != 0, AmountRaisedIsZero);
      :- Need(DueFits(e, who), Overflow);
      :- Need(0 < DueTo(e, who) - Get(e.revenue.claimed, who), NoFundsToWithdraw);
      :- Need(ClaimFits(e, who), Overflow);
      Ok(AfterClaim(e, who))
  }

  function ClaimRevenue(s: State, id: nat, who: Address): Result<State> {
    if !CanSign(who) then Err(AuthFailed)
    else
      :- Need(!s.paused, ContractPaused);
      var e :- GetEntry(s, id);
      var e' :- Claim(e, who);
      var bank :- Transfer(s.bank, e.terms.token, SELF, who, Claimable(e, who));
      Ok(Put(s, id, e', AuditClaim(AuditOf(s, id), e, who)).(bank := bank))
  }

  function DepositRevenue(s: State, id: nat, amount: int): Result<State> {
    var e :- GetCreatorEntry(s, id);
    :- Need(!s.paused, ContractPaused);
    :- Need(0 < amount, ValidationFailed);
    :- Need(!e.campaign.isCancelled, CampaignNotActive);
    :- Need(e.campaign.fundsWithdrawn, ValidationFailed);
    :- Need(e.campaign.hasRevenueSharing, RevenueSharingNotEnabled);
    :- Need(e.campaign.amountRaised != 0, AmountRaisedIsZero);
    :- Need(FitsI128(e.revenue.pool + amount), Overflow);
    var bank :- Transfer(s.bank, e.terms.token, e.campaign.creator, SELF, amount);
    Ok(Put(s, id, e.(revenue := e.revenue.(pool := e.revenue.pool + amount)), AuditOf(s, id)).(bank := bank))
  }

  /** Everything `claim_creator_revenue` does to the campaign before the tokens move. */
  function CreatorClaim(e: Entry): Result<Entry> {
    if !e.campaign.hasRevenueSharing then Err(ValidationFailed)
    else
      :- Need(e.campaign.revenueShare <= BPS, ValidationFailed);
      :- Need(FitsI128(e.revenue.pool * (BPS - e.campaign.revenueShare)), Overflow);
      var owed := CreatorShare(e.revenue.pool, e.campaign.revenueShare) - e.revenue.creatorClaimed;
      :- Need(0 < owed, NoFundsToWithdraw);
      Ok(e.(revenue := e.revenue.(creatorClaimed := e.revenue.creatorClaimed + owed)))
  }

  function ClaimCreatorRevenue(s: State, id: nat): Result<State> {
    var e :- GetCreatorEntry(s, id);
    :- Need(!s.paused, ContractPaused);
    var e' :- CreatorClaim(e);
    var bank :- Transfer(s.bank, e.terms.token, SELF, e.campaign.creator,
                         e'.revenue.creatorClaimed - e.revenue.creatorClaimed);
    Ok(Put(s, id, e', AuditOf(s, id)).(bank := bank))
  }
}
