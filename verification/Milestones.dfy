/** src/milestones.rs. */
module MilestonePayouts {
  import opened Types
  import opened State
  import opened Payouts

  function TotalBps(list: seq<Milestone>): nat {
    if list == [] then 0 else TotalBps(list[..|list| - 1]) + list[|list| - 1].payoutBps
  }

  predicate DistinctIds(list: seq<Milestone>) {
    forall i, j | 0 <= i < j < |list| :: list[i].id != list[j].id
  }

  predicate WellFormed(list: seq<Milestone>) {
    && (forall i | 0 <= i < |list| :: 0 < list[i].payoutBps <= BPS && list[i].description != [])
    && DistinctIds(list)
    && TotalBps(list) == BPS
  }

  function Normalized(list: seq<Milestone>): seq<Milestone> {
    seq(|list|, i requires 0 <= i < |list| => list[i].(verified := false))
  }

  function SetMilestones(s: State, id: nat, list: seq<Milestone>): Result<State> {
    var e :- GetCreatorEntry(s, id);
    :- Need(!s.paused, ContractPaused);
    :- Need(!e.campaign.isCancelled && !e.campaign.fundsWithdrawn, CampaignNotActive);
    :- Need(0 < |list| <= MAX_MILESTONES, ValidationFailed);
    :- Need(e.milestones.list == [], ValidationFailed);
    :- Need(WellFormed(list), ValidationFailed);
    Ok(Put(s, id, e.(milestones := e.milestones.(list := Normalized(list))), AuditOf(s, id)))
  }

  function MarkVerified(list: seq<Milestone>, mid: nat): seq<Milestone> {
    seq(|list|, i requires 0 <= i < |list| => if list[i].id == mid then list[i].(verified := true) else list[i])
  }

  function VerifyMilestone(s: State, admin: Address, id: nat, mid: nat): Result<State> {
    if admin != s.config.admin then Err(NotAuthorized)
    else
      :- Need(CanSign(admin), AuthFailed);
      :- Need(!s.paused, ContractPaused);
      var e :- GetEntry(s, id);
      :- Need(!e.campaign.isCancelled, CampaignNotActive);
      var list := e.milestones.list;
      :- Need(list != [], MilestoneNotFound);
      :- Need(forall i | 0 <= i < |list| :: list[i].id == mid ==> !list[i].verified, ValidationFailed);
      :- Need(exists i | 0 <= i < |list| :: list[i].id == mid, MilestoneNotFound);
      Ok(Put(s, id, e.(milestones := e.milestones.(list := MarkVerified(list, mid))), AuditOf(s, id)))
  }

  // ---- claim_milestone ----------------------------------------------------------------------

  /** The first milestone with this id. */
  function Find(list: seq<Milestone>, mid: nat): Option<Milestone> {
    if list == [] then None
    else if list[0].id == mid then Some(list[0])
    else Find(list[1..], mid)
  }

  /** Payout shares of the claimed milestones. */
  function ClaimedBps(list: seq<Milestone>, claimed: set<nat>): nat {
    if list == [] then 0
    else
      var m := list[|list| - 1];
      ClaimedBps(list[..|list| - 1], claimed) + if m.id in claimed then m.payoutBps else 0
  }

  /** The truncated slices of `amount` that belong to the claimed milestones. */
  function ClaimedSlices(list: seq<Milestone>, claimed: set<nat>, amount: int): int {
    if list == [] then 0
    else
      var m := list[|list| - 1];
      ClaimedSlices(list[..|list| - 1], claimed, amount) + if m.id in claimed then Slice(amount, m.payoutBps) else 0
  }

  predicate SlicesFit(list: seq<Milestone>, claimed: set<nat>, amount: int) {
    forall i | 0 <= i < |list| && list[i].id in claimed :: FitsI128(amount * list[i].payoutBps)
  }

  /** Shares left equal the target's share: the code's test for the last unclaimed milestone. */
  predicate IsLast(ms: Milestones, m: Milestone) {
    BPS - ClaimedBps(ms.list, ms.claimed) == m.payoutBps
  }

  /** One of the two parallel shares: a truncated slice, or what the claimed slices leave for the last claim. */
  function PayoutOf(ms: Milestones, m: Milestone, amount: int): int {
    if IsLast(ms, m) then amount - ClaimedSlices(ms.list, ms.claimed, amount) else Slice(amount, m.payoutBps)
  }

  /** The fee keeps the larger of its slice and the remainder. */
  function FeePayoutOf(ms: Milestones, m: Milestone, fee: int): int {
    var slice := Slice(fee, m.payoutBps);
    if slice < PayoutOf(ms, m, fee) then PayoutOf(ms, m, fee) else slice
  }

  predicate AllOthersClaimed(ms: Milestones, mid: nat) {
    forall i | 0 <= i < |ms.list| && ms.list[i].id != mid :: ms.list[i].id in ms.claimed
  }

  predicate ClaimFits(ms: Milestones, m: Milestone, afterFee: int, fee: int) {
    && SlicesFit(ms.list, ms.claimed, afterFee)
    && FitsI128(afterFee * m.payoutBps)
    && ClaimedBps(ms.list, ms.claimed) <= BPS
    && FitsI128(fee * m.payoutBps)
    && (IsLast(ms, m) ==> SlicesFit(ms.list, ms.claimed, fee))
  }

  function ClaimedEntry(e: Entry, mid: nat): Entry {
    e.(campaign := if AllOthersClaimed(e.milestones, mid) then Closed(e.campaign) else e.campaign,
       milestones := e.milestones.(claimed := e.milestones.claimed + {mid}))
  }

  function ClaimAudit(a: Audit, raised: int, rate: nat, paid: int, fee: int): Audit {
    a.(creatorPaid := a.creatorPaid + paid, feePaid := a.feePaid + fee, claimTerms := a.claimTerms + {(raised, rate)})
  }

  /** What one claim pays, and at which fee rate. */
  datatype Payout = Payout(rate: nat, pay: int, feePay: int)

  /** The checks of `claim_milestone`, and the amounts it pays. */
  function CheckClaim(s: State, id: nat, mid: nat): (r: Result<Payout>)
    ensures r.Ok? ==> id in s.entries
  {
    var e :- GetCreatorEntry(s, id);
    var c := e.campaign;
    :- Need(!s.paused, ContractPaused);
    :- Need(!c.isCancelled, CampaignNotActive);
    :- Need(c.isVerified, CampaignNotVerified);
    :- Need(!c.fundsWithdrawn, FundsAlreadyWithdrawn);
    :- Need(c.amountRaised != 0, NoFundsToWithdraw);
    :- Need(c.fundingGoal <= c.amountRaised, FundingGoalNotReached);
    var ms := e.milestones;
    :- Need(Find(ms.list, mid).Some?, MilestoneNotFound);
    var m := Find(ms.list, mid).value;
    :- Need(m.verified, MilestoneNotVerified);
    :- Need(mid !in ms.claimed, MilestoneAlreadyClaimed);
    var rate := FeeRate(s.config, c);
    :- Need(FitsI128(c.amountRaised * rate) && FitsI128(c.amountRaised * rate + BPS_CEIL_OFFSET), Overflow);
    var fee := SliceUp(c.amountRaised, rate);
    var afterFee := c.amountRaised - fee;
    :- Need(ClaimFits(ms, m, afterFee, fee), Overflow);
    var pay := PayoutOf(ms, m, afterFee);
    var feePay := FeePayoutOf(ms, m, fee);
    :- Need(0 < pay, NoFundsToWithdraw);
    :- Need(FitsI128(s.totalRaised - (feePay + pay)), Overflow);
    Ok(Payout(rate, pay, feePay))
  }

  /** An empty fee is not sent. */
  function PayFee(b: Bank, token: Address, to: Address, fee: int): Result<Bank> {
    if 0 < fee then Transfer(b, token, SELF, to, fee) else Ok(b)
  }

  /** The two transfers of a claim. */
  function PayClaim(bank: Bank, token: Address, admin: Address, creator: Address, claim: Payout): Result<Bank> {
    var paid :- PayFee(bank, token, admin, claim.feePay);
    Transfer(paid, token, SELF, creator, claim.pay)
  }

  function ClaimMilestone(s: State, id: nat, mid: nat): Result<State> {
    var claim :- CheckClaim(s, id, mid);
    var e := s.entries[id];
    var last := AllOthersClaimed(e.milestones, mid);
    var bank :- PayClaim(s.bank, e.terms.token, s.config.admin, e.campaign.creator, claim);
    Ok(Put(s, id, ClaimedEntry(e, mid),
           ClaimAudit(AuditOf(s, id), e.campaign.amountRaised, claim.rate, claim.pay, claim.feePay))
       .(counters := if last then s.counters.(active := Decrement(s.counters.active)) else s.counters,
         totalRaised := s.totalRaised - (claim.feePay + claim.pay), bank := bank))
  }
}
