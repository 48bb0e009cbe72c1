/** src/campaigns/withdraw.rs and src/campaigns/cancel.rs. */
module Payouts {
  import opened Types
  import opened State

  /** The campaign, once its creator has authorized the call. */
  function GetCreatorEntry(s: State, id: nat): Result<Entry> {
    var e :- GetEntry(s, id);
    :- Need(CanSign(e.campaign.creator), AuthFailed);
    Ok(e)
  }

  // ---- withdraw_funds -----------------------------------------------------------------------

  /** How the escrow of a funded campaign is divided. */
  datatype Split = Split(fee: int, reserve: int, creator: int)

  function SplitOf(config: Config, e: Entry): Split {
    var fee := SliceUp(e.campaign.effectiveRaised, FeeRate(config, e.campaign));
    var afterFee := e.campaign.effectiveRaised - fee;
    var reserve := SliceUp(afterFee, e.terms.vestingBps);
    Split(fee, reserve, afterFee - reserve)
  }

  predicate SplitFits(config: Config, e: Entry) {
    var raised := e.campaign.effectiveRaised;
    var afterFee := raised - SliceUp(raised, FeeRate(config, e.campaign));
    && FitsI128(raised * FeeRate(config, e.campaign))
    && FitsI128(raised * FeeRate(config, e.campaign) + BPS_CEIL_OFFSET)
    && FitsI128(afterFee * e.terms.vestingBps)
    && FitsI128(afterFee * e.terms.vestingBps + BPS_CEIL_OFFSET)
  }

  function ReserveFor(e: Entry, now: nat, amount: int): Option<Reserve> {
    if 0 < amount then Some(Reserve(amount, now + e.terms.vestingDelayDays * SECONDS_PER_DAY, false))
    else e.reserve
  }

  function Closed(c: Campaign): Campaign { c.(fundsWithdrawn := true, isActive := false) }

  function WithdrawnEntry(e: Entry, now: nat, amount: int): Entry {
    e.(campaign := Closed(e.campaign), reserve := ReserveFor(e, now, amount))
  }

  /** The checks of `withdraw_funds`, and the global total it leaves. */
  function CheckWithdraw(s: State, id: nat): (r: Result<int>)
    ensures r.Ok? ==> id in s.entries
  {
    var e :- GetCreatorEntry(s, id);
    var c := e.campaign;
    :- Need(!s.paused, ContractPaused);
    :- Need(e.milestones.list == [], ValidationFailed);
    :- Need(c.isVerified, CampaignNotVerified);
    :- Need(!c.isCancelled, CampaignNotActive);
    :- Need(!c.fundsWithdrawn, FundsAlreadyWithdrawn);
    :- Need(c.amountRaised != 0, NoFundsToWithdraw);
    :- Need(c.fundingGoal <= c.amountRaised, FundingGoalNotReached);
    :- Need(Allowed(PhaseOf(c), Withdrawn), InvalidStateTransition);
    :- Need(SplitFits(s.config, e), Overflow);
    var split := SplitOf(s.config, e);
    :- Need(split.reserve <= 0 || FitsU64(s.now + e.terms.vestingDelayDays * SECONDS_PER_DAY), Overflow);
    var total := s.totalRaised - (c.effectiveRaised - split.reserve);
    :- Need(FitsI128(total), Overflow);
    Ok(total)
  }

  function WithdrawFunds(s: State, id: nat): Result<State> {
    var total :- CheckWithdraw(s, id);
    var e := s.entries[id];
    var c, split := e.campaign, SplitOf(s.config, e);
    var bank1 :- Transfer(s.bank, e.terms.token, SELF, e.ledger.feeRecipient.GetOr(s.config.admin), split.fee);
    var bank2 :- Transfer(bank1, e.terms.token, SELF, c.creator, split.creator);
    Ok(Put(s, id, WithdrawnEntry(e, s.now, split.reserve), AuditOf(s, id))
       .(counters := s.counters.(active := Decrement(s.counters.active)), totalRaised := total, bank := bank2))
  }

  function WithdrawReserve(s: State, id: nat): Result<State> {
    if !(id in s.entries && s.entries[id].reserve.Some?) then Err(NoFundsToWithdraw)
    else
      var e := s.entries[id];
      var reserve := e.reserve.value;
      :- Need(!s.paused, ContractPaused);
      :- Need(!reserve.released, FundsAlreadyWithdrawn);
      :- Need(reserve.releaseTime <= s.now, ValidationFailed);
      :- Need(e.campaign.fundsWithdrawn, ValidationFailed);
      :- Need(CanSign(e.campaign.creator), AuthFailed);
      :- Need(FitsI128(s.totalRaised - reserve.amount), Overflow);
      var bank :- Transfer(s.bank, e.terms.token, SELF, e.campaign.creator, reserve.amount);
      Ok(Put(s, id, e.(reserve := Some(reserve.(released := true))), AuditOf(s, id))
         .(totalRaised := s.totalRaised - reserve.amount, bank := bank))
  }

  // ---- cancel_campaign, admin_cancel_campaign -----------------------------------------------

  function CancelledCampaign(c: Campaign): Campaign { c.(isCancelled := true, isActive := false) }

  /** `remove_voting_state` drops the tallies but keeps who has voted. */
  function WithoutTally(v: Votes): Votes { NO_VOTES.(voted := v.voted) }

  function CancelledEntry(e: Entry): Entry {
    e.(campaign := CancelledCampaign(e.campaign), votes := WithoutTally(e.votes))
  }

  function CancelCounters(c: Counters): Counters {
    c.(active := Decrement(c.active), cancelled := c.cancelled + 1)
  }

  function CancelTotal(s: State, c: Campaign): int {
    if 0 < c.amountRaised then s.totalRaised - c.amountRaised else s.totalRaised
  }

  /** The checks of `cancel_campaign`, and the global total it leaves. */
  function CheckCancel(s: State, id: nat): (r: Result<int>)
    ensures r.Ok? ==> id in s.entries
  {
    var e :- GetCreatorEntry(s, id);
    var c := e.campaign;
    :- Need(!s.paused, ContractPaused);
    :- Need(IsOpen(c), CampaignNotActive);
    :- Need(!c.fundsWithdrawn, CancellationNotAllowed);
    :- Need(c.amountRaised < c.fundingGoal, GoalMetCancellationNotAllowed);
    :- Need(Allowed(PhaseOf(c), Cancelled), InvalidStateTransition);
    :- Need(c.amountRaised <= 0 || FitsI128(CancelTotal(s, c)), Overflow);
    Ok(CancelTotal(s, c))
  }

  function CancelCampaign(s: State, id: nat): Result<State> {
    var total :- CheckCancel(s, id);
    var e := s.entries[id];
    var c := e.campaign;
    var bank :- if 0 < e.revenue.pool then Transfer(s.bank, e.terms.token, SELF, c.creator, e.revenue.pool)
                else Ok(s.bank);
    var returned := e.(revenue := e.revenue.(pool := if 0 < e.revenue.pool then 0 else e.revenue.pool));
    Ok(Put(s, id, CancelledEntry(returned), AuditOf(s, id).(ballots := map[]))
       .(counters := CancelCounters(s.counters), totalRaised := total, bank := bank))
  }

  function CheckAdminCancel(s: State, admin: Address, id: nat, reason: string): (r: Result<int>)
    ensures r.Ok? ==> id in s.entries
  {
    if admin != s.config.admin then Err(NotAuthorized)
    else
      :- Need(CanSign(admin), AuthFailed);
      :- Need(!s.paused, ContractPaused);
      var e :- GetEntry(s, id);
      var c := e.campaign;
      :- Need(IsOpen(c), CampaignNotActive);
      :- Need(!c.fundsWithdrawn, CancellationNotAllowed);
      :- Need(0 < |reason| <= DESCRIPTION_MAX_LEN, ValidationFailed);
      :- Need(Allowed(PhaseOf(c), Cancelled), InvalidStateTransition);
      :- Need(c.amountRaised <= 0 || FitsI128(CancelTotal(s, c)), Overflow);
      Ok(CancelTotal(s, c))
  }

  function AdminCancelCampaign(s: State, admin: Address, id: nat, reason: string): Result<State> {
    var total :- CheckAdminCancel(s, admin, id, reason);
    var e := s.entries[id];
    Ok(Put(s, id, CancelledEntry(e), AuditOf(s, id).(ballots := map[]))
       .(counters := CancelCounters(s.counters), totalRaised := total))
  }
}
