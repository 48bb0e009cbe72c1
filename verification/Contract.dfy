/**
 The contract as it runs: storage in fields, entry points as methods that read and rewrite them. Every entry point
 is proved to do to the storage exactly what its specification function says, errors included, and to keep
 the invariant.
 */
module Contract {
  import opened Types
  import opened State
  import opened Contributions
  import opened Payouts
  import opened MilestonePayouts
  import opened RevenueSharing
  import opened Governance
  import opened Registry
  import opened Runs
  import opened Loops
  import opened Invariants
  import BatchProofs
  import GovernanceProofs
  import MilestoneSound
  import PayoutProofs
  import RegistryProofs
  import RevenueProofs
  import opened ContributionProofs
  import Buckets
  import Queries

  /** The call ended as specified: an error reverts it, success leaves the specified state. */
  ghost predicate Follows<T>(spec: Result<State>, before: State, after: State, r: Result<T>) {
    match spec
    case Ok(s) => r.Ok? && after == s
    case Err(e) => r == Err(e) && after == before
  }

  /** Whatever a call that follows a sound specification does, the invariant holds after it and nothing is taken back. */
  lemma FollowingKeepsInvariant<T(!new)>(before: State, spec: Result<State>)
    requires Inv(before) && Sound(before, spec)
    ensures forall after: State, r: Result<T> :: Follows(spec, before, after, r) ==> Inv(after) && Evolves(before, after)
  {
    hide Inv, Evolves, Surplus;
    EvolvesRefl(before);
  }

  class ProofOfHeart {
    var now: nat
    var ledgerSeq: nat
    var paused: bool
    var config: Config
    var entries: map<nat, Entry>
    var counters: Counters
    var totalRaised: int
    var bank: Bank
    var index: Index
    ghost var audits: map<nat, Audit>

    ghost function View(): State
      reads this
    {
      State(now, ledgerSeq, paused, config, entries, audits, counters, totalRaised, bank, index)
    }

    ghost predicate Valid()
      reads this
    {
      Inv(View())
    }

    constructor (config: Config, now: nat, ledgerSeq: nat, bank: Bank)
      requires ValidConfig(config) && forall k | k in bank :: 0 <= bank[k]
      ensures Init(View()) && Valid()
      ensures View().config == config && View().now == now && View().bank == bank && !paused
    {
      this.now, this.ledgerSeq, this.paused, this.config := now, ledgerSeq, false, config;
      entries, audits := map[], map[];
      counters, totalRaised := Counters(0, 0, 0, 0), 0;
      this.bank := bank;
      index := Index(map[], map[], map[], map[], map[]);
      new;
      InitInv(View());
    }

    /** `init` on a contract not initialised before; `isToken` is the answer of the probe of the token contract. */
    static method Initialize(admin: Address, token: Address, fee: nat, isToken: bool, now: nat, ledgerSeq: nat, bank: Bank)
      returns (r: Result<ProofOfHeart>)
      requires forall k | k in bank :: 0 <= bank[k]
      ensures match r
              case Ok(c) =>
                && CanSign(admin) && fee <= PLATFORM_FEE_MAX_BPS && isToken
                && fresh(c) && Init(c.View()) && c.Valid() && !c.paused && c.bank == bank
                && c.config == InitialConfig(admin, token, fee)
              case Err(e) =>
                && (e == AuthFailed <==> !CanSign(admin))
                && (e == InvalidPlatformFee <==> CanSign(admin) && PLATFORM_FEE_MAX_BPS < fee)
                && (e == InvalidTokenContract <==> CanSign(admin) && fee <= PLATFORM_FEE_MAX_BPS && !isToken)
                && e in {AuthFailed, InvalidPlatformFee, InvalidTokenContract}
    {
      hide Inv;
      if !CanSign(admin) {
        return Err(AuthFailed);
      }
      :- Need(fee <= PLATFORM_FEE_MAX_BPS, InvalidPlatformFee);
      :- Need(isToken, InvalidTokenContract);
      var c := new ProofOfHeart(InitialConfig(admin, token, fee), now, ledgerSeq, bank);
      return Ok(c);
    }

    // ---- Contributions ------------------------------------------------------------------------

    method CheckContribution(who: Address, id: nat, amount: int) returns (r: Result<(nat, nat)>)
      ensures r == CheckItem(View(), who, id, amount)
      ensures r.Ok? ==> Admitted(View(), who, id, amount, r.value)
    {
      ContributionProofs.ItemAdmitted(View(), who, id, amount);
      hide Admitted, CheckCaps, CheckPersonalCap, CheckTransactionCap, BurstGuard;
      :- Need(0 < amount, ContributionMustBePositive);
      :- Need(id in entries, CampaignNotFound);
      var e := entries[id];
      :- Need(e.campaign.isVerified, CampaignNotVerified);
      :- Need(IsOpen(e.campaign), CampaignNotActive);
      :- Need(who != e.campaign.creator, NotAuthorized);
      :- Need(now <= e.campaign.deadline, DeadlinePassed);
      :- CheckTransactionCap(config, amount);
      :- CheckCaps(e.campaign, Get(e.ledger.lifetime, who), amount);
      :- CheckPersonalCap(e.ledger, who, amount);
      r := BurstGuard(e.campaign, e.ledger, ledgerSeq, amount);
    }

    /** `update_contribution_accounting`. */
    method UpdateAccounting(id: nat, who: Address, amount: int, burst: (nat, nat))
      requires id in entries
      modifies this`entries, this`totalRaised
      ensures entries == old(entries)[id := Accounted(old(entries[id]), config.admin, who, amount, burst)]
      ensures totalRaised == old(totalRaised) + amount
    {
      var e := entries[id];
      var c, l := e.campaign, e.ledger;
      var current, lifetime := Get(l.contributions, who), Get(l.lifetime, who);
      var recipient, count := l.feeRecipient, l.contributorCount;
      if c.amountRaised == 0 {
        recipient := Some(config.admin);
      }
      c := c.(amountRaised := c.amountRaised + amount, effectiveRaised := c.effectiveRaised + amount);
      if lifetime == 0 {
        count := count + 1;
      }
      l := Ledger(l.contributions[who := current + amount], l.lifetime[who := lifetime + amount], count,
                  l.personalCaps, recipient, burst.0, burst.1);
      entries := entries[id := e.(campaign := c, ledger := l)];
      totalRaised := totalRaised + amount;
    }

    /** One item's checks and accounting, shared by `contribute` and `batch_contribute`. */
    method AcceptItem(who: Address, id: nat, amount: int) returns (r: Result<()>)
      modifies this`entries, this`totalRaised, this`audits
      ensures Follows(ContributeItem(old(View()), who, id, amount), old(View()), View(), r)
    {
      hide CheckItem, Accounted;
      var burst :- CheckContribution(who, id, amount);
      var e := entries[id];
      :- Need(AccountingFits(totalRaised, e, who, amount), Overflow);
      audits := audits[id := AuditOf(View(), id)];
      UpdateAccounting(id, who, amount, burst);
      return Ok(());
    }

    method Contribute(id: nat, who: Address, amount: int) returns (r: Result<()>)
      requires Valid()
      modifies this`entries, this`totalRaised, this`audits, this`bank
      ensures Follows(Contributions.Contribute(old(View()), id, who, amount), old(View()), View(), r)
      ensures Valid() && Evolves(old(View()), View())
    {
      hide Inv, Evolves, Sound;
      ContributionProofs.ContributeSound(View(), id, who, amount);
      FollowingKeepsInvariant<()>(View(), Contributions.Contribute(View(), id, who, amount));
      hide Contributions.Contribute, ContributeItem, Transfer;
      ghost var before := View();
      var entries0, total0 := entries, totalRaised;
      ContributeCases(before, id, who, amount);
      :- Need(CanSign(who), AuthFailed);
      :- Need(!paused, ContractPaused);
      var item := AcceptItem(who, id, amount);
      if item.Err? {
        return item;
      }
      var paid := Transfer(bank, entries[id].terms.token, who, SELF, amount);
      if paid.Err? {
        // The host reverts the accounting of a call whose transfer traps.
        entries, totalRaised, audits := entries0, total0, before.audits;
        return Err(paid.error);
      }
      bank := paid.value;
      return Ok(());
    }

    /** The item loop of `batch_contribute`: the accounting, and what is owed per token. */
    method AcceptItems(who: Address, items: seq<Item>) returns (r: Result<map<Address, int>>)
      modifies this`entries, this`totalRaised, this`audits
      ensures r.Ok? ==> ContributeItems(old(View()), who, items) == Ok(View()) && r.value == Owed(old(View()), items)
      ensures r.Err? ==> ContributeItems(old(View()), who, items) == Err(r.error)
    {
      hide ContributeItem, Owed;
      ghost var before := View();
      var owed: map<Address, int> := map[];
      OwedNone(before);
      for i := 0 to |items|
        invariant ContributeItems(before, who, items[..i]) == Ok(View())
        invariant owed == Owed(before, items[..i])
      {
        PrefixStep(items, i);
        var item := AcceptItem(who, items[i].0, items[i].1);
        if item.Err? {
          ItemsFail(before, who, items, i + 1);
          return Err(item.error);
        }
        BatchProofs.ItemsFrame(before, who, items[..i + 1]);
        OwedNext(before, View(), items[..i + 1]);
        var token := entries[items[i].0].terms.token;
        owed := owed[token := Get(owed, token) + items[i].1];
      }
      assert items[..|items|] == items;
      return Ok(owed);
    }

    method BatchContribute(who: Address, items: seq<Item>) returns (r: Result<()>)
      requires Valid()
      modifies this`entries, this`totalRaised, this`audits, this`bank
      ensures Follows(Contributions.BatchContribute(old(View()), who, items), old(View()), View(), r)
      ensures Valid() && Evolves(old(View()), View())
    {
      hide Inv, Evolves, Sound;
      BatchProofs.BatchSound(View(), who, items);
      FollowingKeepsInvariant<()>(View(), Contributions.BatchContribute(View(), who, items));
      hide ContributeItems, Affordable, Settle, Owed;
      ghost var before := View();
      var entries0, total0 := entries, totalRaised;
      :- Need(CanSign(who), AuthFailed);
      :- Need(!paused, ContractPaused);
      :- Need(0 < |items| <= MAX_BATCH_CONTRIBUTE, ValidationFailed);
      var owed := AcceptItems(who, items);
      if owed.Err? {
        entries, totalRaised, audits := entries0, total0, before.audits;
        return Err(owed.error);
      }
      BatchProofs.ItemsFrame(before, who, items);
      BatchProofs.OwedNonNegative(before, items);
      var paid := PayOwed(bank, who, owed.value);
      if paid.Err? {
        entries, totalRaised, audits := entries0, total0, before.audits;
        return Err(paid.error);
      }
      bank := paid.value;
      return Ok(());
    }

    /** The checks of `claim_refund`, and the global total it leaves. */
    method GuardRefund(id: nat, who: Address) returns (r: Result<int>)
      ensures r == CheckRefund(View(), id, who)
    {
      if !CanSign(who) {
        return Err(AuthFailed);
      }
      :- Need(!paused, ContractPaused);
      :- Need(id in entries, CampaignNotFound);
      var e := entries[id];
      var c, l := e.campaign, e.ledger;
      var failed := c.deadline < now && c.amountRaised < c.fundingGoal;
      :- Need(c.isCancelled || failed, ValidationFailed);
      var amount := Get(l.contributions, who);
      :- Need(amount != 0, NoFundsToWithdraw);
      :- Need(FitsI128(c.effectiveRaised - amount), Overflow);
      var total := totalRaised;
      if !c.isCancelled {
        total := total - amount;
        :- Need(FitsI128(total), Overflow);
      }
      return Ok(total);
    }

    method ClaimRefund(id: nat, who: Address) returns (r: Result<()>)
      requires Valid()
      modifies this`entries, this`totalRaised, this`audits, this`bank
      ensures Follows(Contributions.ClaimRefund(old(View()), id, who), old(View()), View(), r)
      ensures Valid() && Evolves(old(View()), View())
    {
      hide Inv, Evolves, Sound;
      ContributionProofs.ClaimRefundSound(View(), id, who);
      FollowingKeepsInvariant<()>(View(), Contributions.ClaimRefund(View(), id, who));
      hide Transfer, CheckRefund, Refunded, RefundAudit;
      ghost var before := View();
      var total :- GuardRefund(id, who);
      var e := entries[id];
      var amount := Get(e.ledger.contributions, who);
      // The host reverts a call whose transfer traps, so the transfer is settled before anything is stored.
      var paid :- Transfer(bank, e.terms.token, SELF, who, amount);
      audits := audits[id := RefundAudit(AuditOf(before, id), e.campaign, amount)];
      ForgetContribution(id, who);
      totalRaised, bank := total, paid;
      return Ok(());
    }

    /** Takes a refunded contributor off the campaign's books. */
    method ForgetContribution(id: nat, who: Address)
      requires id in entries
      modifies this`entries
      ensures entries == old(entries)[id := Refunded(old(entries[id]), who)]
    {
      var e := entries[id];
      var c, l, v := e.campaign, e.ledger, e.revenue;
      c := c.(effectiveRaised := c.effectiveRaised - Get(l.contributions, who));
      l := l.(contributions := l.contributions - {who}, personalCaps := l.personalCaps - {who});
      if 0 < l.contributorCount {
        l := l.(contributorCount := l.contributorCount - 1);
      }
      v := v.(claimed := v.claimed - {who});
      entries := entries[id := e.(campaign := c, ledger := l, revenue := v)];
    }

    method SetPersonalCap(id: nat, who: Address, amount: int) returns (r: Result<()>)
      requires Valid()
      modifies this`entries, this`audits
      ensures Follows(Contributions.SetPersonalCap(old(View()), id, who, amount), old(View()), View(), r)
      ensures Valid() && Evolves(old(View()), View())
    {
      hide Inv, Evolves, Sound;
      ContributionProofs.SetPersonalCapSound(View(), id, who, amount);
      FollowingKeepsInvariant<()>(View(), Contributions.SetPersonalCap(View(), id, who, amount));
      if !CanSign(who) {
        return Err(AuthFailed);
      }
      :- Need(0 <= amount, ValidationFailed);
      var lifetime := if id in entries then Get(entries[id].ledger.lifetime, who) else 0;
      :- Need(lifetime <= amount, ValidationFailed);
      :- Need(id in entries, CampaignNotFound);
      var e := entries[id];
      :- Need(IsOpen(e.campaign), CampaignNotActive);
      :- Need(e.campaign.maxPerUser <= 0 || amount <= e.campaign.maxPerUser, ValidationFailed);
      audits := audits[id := AuditOf(View(), id)];
      entries := entries[id := e.(ledger := e.ledger.(personalCaps := e.ledger.personalCaps[who := amount]))];
      return Ok(());
    }

    method RemovePersonalCap(id: nat, who: Address) returns (r: Result<()>)
      requires Valid()
      modifies this`entries, this`audits
      ensures Follows(Contributions.RemovePersonalCap(old(View()), id, who), old(View()), View(), r)
      ensures Valid() && Evolves(old(View()), View())
    {
      hide Inv, Evolves, Sound;
      ContributionProofs.RemovePersonalCapSound(View(), id, who);
      FollowingKeepsInvariant<()>(View(), Contributions.RemovePersonalCap(View(), id, who));
      if !CanSign(who) {
        return Err(AuthFailed);
      }
      :- Need(id in entries, CampaignNotFound);
      var e := entries[id];
      :- Need(IsOpen(e.campaign), CampaignNotActive);
      :- Need(who in e.ledger.personalCaps, PersonalCapNotFound);
      audits := audits[id := AuditOf(View(), id)];
      entries := entries[id := e.(ledger := e.ledger.(personalCaps := e.ledger.personalCaps - {who}))];
      return Ok(());
    }

    // ---- Payouts ------------------------------------------------------------------------------

    /** The division of a funded campaign's escrow. */
    method DivideEscrow(e: Entry) returns (p: Split)
      ensures p == SplitOf(config, e)
      ensures 0 <= e.campaign.effectiveRaised && FeeRate(config, e.campaign) <= BPS && e.terms.vestingBps <= BPS ==>
                var raised, rate, bps := e.campaign.effectiveRaised, FeeRate(config, e.campaign), e.terms.vestingBps;
                && 0 <= p.fee && 0 <= p.reserve && 0 <= p.creator && p.fee + p.reserve + p.creator == raised
                && (p.fee - 1) * BPS < raised * rate <= p.fee * BPS
                && (p.reserve - 1) * BPS < (raised - p.fee) * bps <= p.reserve * BPS
    {
      hide SliceUp;
      if 0 <= e.campaign.effectiveRaised && FeeRate(config, e.campaign) <= BPS && e.terms.vestingBps <= BPS {
        PayoutProofs.SplitAddsUp(config, e);
      }
      var fee := SliceUp(e.campaign.effectiveRaised, FeeRate(config, e.campaign));
      var afterFee := e.campaign.effectiveRaised - fee;
      var reserve := SliceUp(afterFee, e.terms.vestingBps);
      p := Split(fee, reserve, afterFee - reserve);
    }

    /** The checks of `withdraw_funds`, and the global total it leaves. */
    method GuardWithdraw(id: nat) returns (r: Result<int>)
      ensures r == CheckWithdraw(View(), id)
    {
      hide SplitOf, SplitFits, Allowed, PhaseOf;
      :- Need(id in entries, CampaignNotFound);
      var e := entries[id];
      var c := e.campaign;
      :- Need(CanSign(c.creator), AuthFailed);
      :- Need(!paused, ContractPaused);
      :- Need(e.milestones.list == [], ValidationFailed);
      :- Need(c.isVerified, CampaignNotVerified);
      :- Need(!c.isCancelled, CampaignNotActive);
      :- Need(!c.fundsWithdrawn, FundsAlreadyWithdrawn);
      :- Need(c.amountRaised != 0, NoFundsToWithdraw);
      :- Need(c.fundingGoal <= c.amountRaised, FundingGoalNotReached);
      :- Need(Allowed(PhaseOf(c), Withdrawn), InvalidStateTransition);
      :- Need(SplitFits(config, e), Overflow);
      var p := DivideEscrow(e);
      :- Need(p.reserve <= 0 || FitsU64(now + e.terms.vestingDelayDays * SECONDS_PER_DAY), Overflow);
      var total := totalRaised - (c.effectiveRaised - p.reserve);
      :- Need(FitsI128(total), Overflow);
      return Ok(total);
    }

    method WithdrawFunds(id: nat) returns (r: Result<()>)
      requires Valid()
      modifies this`entries, this`totalRaised, this`audits, this`bank, this`counters
      ensures Follows(Payouts.WithdrawFunds(old(View()), id), old(View()), View(), r)
      ensures Valid() && Evolves(old(View()), View())
    {
      hide Inv, Evolves, Sound;
      PayoutProofs.WithdrawFundsSound(View(), id);
      FollowingKeepsInvariant<()>(View(), Payouts.WithdrawFunds(View(), id));
      hide Transfer, SplitOf, CheckWithdraw, WithdrawnEntry;
      ghost var before := View();
      var total :- GuardWithdraw(id);
      var e := entries[id];
      var c := e.campaign;
      var p := DivideEscrow(e);
      var paid :- Transfer(bank, e.terms.token, SELF, e.ledger.feeRecipient.GetOr(config.admin), p.fee);
      paid :- Transfer(paid, e.terms.token, SELF, c.creator, p.creator);
      StoreWithdrawal(id, p.reserve, AuditOf(before, id));
      totalRaised, bank := total, paid;
      return Ok(());
    }

    /** Closes a withdrawn campaign and records what is held back. */
    method StoreWithdrawal(id: nat, reserved: int, ghost a: Audit)
      requires id in entries
      modifies this`entries, this`counters, this`audits
      ensures entries == old(entries)[id := WithdrawnEntry(old(entries[id]), now, reserved)]
      ensures audits == old(audits)[id := a]
      ensures counters == old(counters).(active := Decrement(old(counters).active))
    {
      audits := audits[id := a];
      var e := entries[id];
      e := e.(campaign := e.campaign.(fundsWithdrawn := true, isActive := false));
      if 0 < reserved {
        var release := now + e.terms.vestingDelayDays * SECONDS_PER_DAY;
        e := e.(reserve := Some(Reserve(reserved, release, false)));
      }
      entries := entries[id := e];
      counters := counters.(active := Decrement(counters.active));
    }

    method WithdrawReserve(id: nat) returns (r: Result<()>)
      requires Valid()
      modifies this`entries, this`totalRaised, this`audits, this`bank
      ensures Follows(Payouts.WithdrawReserve(old(View()), id), old(View()), View(), r)
      ensures Valid() && Evolves(old(View()), View())
    {
      hide Inv, Evolves, Sound;
      PayoutProofs.WithdrawReserveSound(View(), id);
      FollowingKeepsInvariant<()>(View(), Payouts.WithdrawReserve(View(), id));
      hide Transfer;
      :- Need(id in entries && entries[id].reserve.Some?, NoFundsToWithdraw);
      var e := entries[id];
      var reserve := e.reserve.value;
      :- Need(!paused, ContractPaused);
      :- Need(!reserve.released, FundsAlreadyWithdrawn);
      :- Need(reserve.releaseTime <= now, ValidationFailed);
      :- Need(e.campaign.fundsWithdrawn, ValidationFailed);
      :- Need(CanSign(e.campaign.creator), AuthFailed);
      :- Need(FitsI128(totalRaised - reserve.amount), Overflow);
      var paid :- Transfer(bank, e.terms.token, SELF, e.campaign.creator, reserve.amount);
      audits := audits[id := AuditOf(View(), id)];
      entries := entries[id := e.(reserve := Some(reserve.(released := true)))];
      totalRaised, bank := totalRaised - reserve.amount, paid;
      return Ok(());
    }

    /** The checks of `cancel_campaign`, and the global total it leaves. */
    method GuardCancel(id: nat) returns (r: Result<int>)
      ensures r == CheckCancel(View(), id)
    {
      hide Allowed, PhaseOf;
      :- Need(id in entries, CampaignNotFound);
      var e := entries[id];
      var c := e.campaign;
      :- Need(CanSign(c.creator), AuthFailed);
      :- Need(!paused, ContractPaused);
      :- Need(IsOpen(c), CampaignNotActive);
      :- Need(!c.fundsWithdrawn, CancellationNotAllowed);
      :- Need(c.amountRaised < c.fundingGoal, GoalMetCancellationNotAllowed);
      :- Need(Allowed(PhaseOf(c), Cancelled), InvalidStateTransition);
      var total := totalRaised;
      if 0 < c.amountRaised {
        total := total - c.amountRaised;
        :- Need(FitsI128(total), Overflow);
      }
      return Ok(total);
    }

    method CancelCampaign(id: nat) returns (r: Result<()>)
      requires Valid()
      modifies this`entries, this`totalRaised, this`audits, this`bank, this`counters
      ensures Follows(Payouts.CancelCampaign(old(View()), id), old(View()), View(), r)
      ensures Valid() && Evolves(old(View()), View())
    {
      hide Inv, Evolves, Sound;
      PayoutProofs.CancelCampaignSound(View(), id);
      FollowingKeepsInvariant<()>(View(), Payouts.CancelCampaign(View(), id));
      hide Transfer, CheckCancel, CancelledEntry;
      ghost var before := View();
      var total :- GuardCancel(id);
      var e := entries[id];
      var pool, paid := e.revenue.pool, bank;
      if 0 < pool {
        paid :- Transfer(bank, e.terms.token, SELF, e.campaign.creator, pool);
        pool := 0;
      }
      audits := audits[id := AuditOf(before, id).(ballots := map[])];
      StoreCancellation(id, pool);
      totalRaised, bank := total, paid;
      return Ok(());
    }

    /** Marks the campaign cancelled, drops its tallies and sets what is left of its revenue pool. */
    method StoreCancellation(id: nat, pool: int)
      requires id in entries
      modifies this`entries, this`counters
      ensures entries == old(entries)[id := CancelledEntry(old(entries[id]).(revenue := old(entries[id]).revenue.(pool := pool)))]
      ensures counters == CancelCounters(old(counters))
    {
      var e := entries[id];
      var c, v := e.campaign, e.votes;
      v := v.(approve := 0, reject := 0, approveWeight := 0, rejectWeight := 0);
      c := c.(isCancelled := true, isActive := false);
      entries := entries[id := e.(campaign := c, revenue := e.revenue.(pool := pool), votes := v)];
      counters := counters.(active := Decrement(counters.active), cancelled := counters.cancelled + 1);
    }

    /** The checks of `admin_cancel_campaign`, and the global total it leaves. */
    method GuardAdminCancel(admin: Address, id: nat, reason: string) returns (r: Result<int>)
      ensures r == CheckAdminCancel(View(), admin, id, reason)
    {
      hide Allowed, PhaseOf;
      :- Need(admin == config.admin, NotAuthorized);
      :- Need(CanSign(admin), AuthFailed);
      :- Need(!paused, ContractPaused);
      :- Need(id in entries, CampaignNotFound);
      var e := entries[id];
      var c := e.campaign;
      :- Need(IsOpen(c), CampaignNotActive);
      :- Need(!c.fundsWithdrawn, CancellationNotAllowed);
      :- Need(0 < |reason| <= DESCRIPTION_MAX_LEN, ValidationFailed);
      :- Need(Allowed(PhaseOf(c), Cancelled), InvalidStateTransition);
      var total := totalRaised;
      if 0 < c.amountRaised {
        total := total - c.amountRaised;
        :- Need(FitsI128(total), Overflow);
      }
      return Ok(total);
    }

    method AdminCancelCampaign(admin: Address, id: nat, reason: string) returns (r: Result<()>)
      requires Valid()
      modifies this`entries, this`totalRaised, this`audits, this`counters
      ensures Follows(Payouts.AdminCancelCampaign(old(View()), admin, id, reason), old(View()), View(), r)
      ensures Valid() && Evolves(old(View()), View())
    {
      hide Inv, Evolves, Sound;
      PayoutProofs.AdminCancelSound(View(), admin, id, reason);
      FollowingKeepsInvariant<()>(View(), Payouts.AdminCancelCampaign(View(), admin, id, reason));
      hide CheckAdminCancel, CancelledEntry;
      ghost var before := View();
      var total :- GuardAdminCancel(admin, id, reason);
      audits := audits[id := AuditOf(before, id).(ballots := map[])];
      StoreCancellation(id, entries[id].revenue.pool);
      assert before.entries[id].(revenue := before.entries[id].revenue.(pool := before.entries[id].revenue.pool)) == before.entries[id];
      totalRaised := total;
      return Ok(());
    }

    // ---- Milestones ---------------------------------------------------------------------------

    method SetMilestones(id: nat, list: seq<Milestone>) returns (r: Result<()>)
      requires Valid()
      modifies this`entries, this`audits
      ensures Follows(MilestonePayouts.SetMilestones(old(View()), id, list), old(View()), View(), r)
      ensures Valid() && Evolves(old(View()), View())
    {
      hide Inv, Evolves, Sound;
      MilestoneSound.SetMilestonesSound(View(), id, list);
      FollowingKeepsInvariant<()>(View(), MilestonePayouts.SetMilestones(View(), id, list));
      hide WellFormed;
      :- Need(id in entries, CampaignNotFound);
      var e := entries[id];
      :- Need(CanSign(e.campaign.creator), AuthFailed);
      :- Need(!paused, ContractPaused);
      :- Need(!e.campaign.isCancelled && !e.campaign.fundsWithdrawn, CampaignNotActive);
      :- Need(0 < |list| <= MAX_MILESTONES, ValidationFailed);
      :- Need(e.milestones.list == [], ValidationFailed);
      var ok := CheckMilestones(list);
      :- Need(ok, ValidationFailed);
      audits := audits[id := AuditOf(View(), id)];
      entries := entries[id := e.(milestones := e.milestones.(list := Normalized(list)))];
      return Ok(());
    }

    method VerifyMilestone(admin: Address, id: nat, mid: nat) returns (r: Result<()>)
      requires Valid()
      modifies this`entries, this`audits
      ensures Follows(MilestonePayouts.VerifyMilestone(old(View()), admin, id, mid), old(View()), View(), r)
      ensures Valid() && Evolves(old(View()), View())
    {
      hide Inv, Evolves, Sound;
      MilestoneSound.VerifyMilestoneSound(View(), admin, id, mid);
      FollowingKeepsInvariant<()>(View(), MilestonePayouts.VerifyMilestone(View(), admin, id, mid));
      hide MarkVerified;
      :- Need(admin == config.admin, NotAuthorized);
      :- Need(CanSign(admin), AuthFailed);
      :- Need(!paused, ContractPaused);
      :- Need(id in entries, CampaignNotFound);
      var e := entries[id];
      :- Need(!e.campaign.isCancelled, CampaignNotActive);
      :- Need(e.milestones.list != [], MilestoneNotFound);
      var updated := MarkMilestone(e.milestones.list, mid);
      if updated.Err? {
        return Err(updated.error);
      }
      audits := audits[id := AuditOf(View(), id)];
      entries := entries[id := e.(milestones := e.milestones.(list := updated.value))];
      return Ok(());
    }

    /** The amounts of one milestone claim, creator's share first: the loops of `claim_milestone` up to the last-milestone dust. */
    method PayoutAmounts(ms: Milestones, m: Milestone, afterFee: int, fee: int) returns (r: Result<(int, int)>)
      ensures r == if MilestonePayouts.ClaimFits(ms, m, afterFee, fee)
                   then Ok((PayoutOf(ms, m, afterFee), FeePayoutOf(ms, m, fee))) else Err(Overflow)
    {
      hide SlicesFit, ClaimedBps, ClaimedSlices;
      var claimed := ClaimedTotals(ms.list, ms.claimed, afterFee);
      if claimed.Err? {
        return Err(claimed.error);
      }
      var (bps, sum) := claimed.value;
      :- Need(FitsI128(afterFee * m.payoutBps), Overflow);
      var pay := afterFee * m.payoutBps / BPS;
      :- Need(bps <= BPS, Overflow);
      var last := BPS - bps == m.payoutBps;
      :- Need(FitsI128(fee * m.payoutBps), Overflow);
      var feePay := fee * m.payoutBps / BPS;
      if last {
        var fees := ClaimedTotals(ms.list, ms.claimed, fee);
        if fees.Err? {
          return Err(fees.error);
        }
        if feePay < fee - fees.value.1 {
          feePay := fee - fees.value.1;
        }
        pay := afterFee - sum;
      }
      return Ok((pay, feePay));
    }

    /** The checks of `claim_milestone`, and the amounts it pays. */
    method GuardClaim(id: nat, mid: nat) returns (r: Result<Payout>)
      ensures r == CheckClaim(View(), id, mid)
    {
      hide MilestonePayouts.ClaimFits, PayoutOf, FeePayoutOf, Find, SliceUp;
      :- Need(id in entries, CampaignNotFound);
      var e := entries[id];
      var c, ms := e.campaign, e.milestones;
      :- Need(CanSign(c.creator), AuthFailed);
      :- Need(!paused, ContractPaused);
      :- Need(!c.isCancelled, CampaignNotActive);
      :- Need(c.isVerified, CampaignNotVerified);
      :- Need(!c.fundsWithdrawn, FundsAlreadyWithdrawn);
      :- Need(c.amountRaised != 0, NoFundsToWithdraw);
      :- Need(c.fundingGoal <= c.amountRaised, FundingGoalNotReached);
      var target := FindMilestone(ms.list, mid);
      :- Need(target.Some?, MilestoneNotFound);
      :- Need(target.value.verified, MilestoneNotVerified);
      :- Need(mid !in ms.claimed, MilestoneAlreadyClaimed);
      var rate := FeeRate(config, c);
      :- Need(FitsI128(c.amountRaised * rate) && FitsI128(c.amountRaised * rate + BPS_CEIL_OFFSET), Overflow);
      var fee := SliceUp(c.amountRaised, rate);
      var amounts := PayoutAmounts(ms, target.value, c.amountRaised - fee, fee);
      if amounts.Err? {
        return Err(amounts.error);
      }
      var (pay, feePay) := amounts.value;
      :- Need(0 < pay, NoFundsToWithdraw);
      :- Need(FitsI128(totalRaised - (feePay + pay)), Overflow);
      return Ok(Payout(rate, pay, feePay));
    }

    method ClaimMilestone(id: nat, mid: nat) returns (r: Result<()>)
      requires Valid()
      modifies this`entries, this`totalRaised, this`audits, this`bank, this`counters
      ensures Follows(MilestonePayouts.ClaimMilestone(old(View()), id, mid), old(View()), View(), r)
      ensures Valid() && Evolves(old(View()), View())
    {
      hide Inv, Evolves, Sound;
      MilestoneSound.ClaimMilestoneSound(View(), id, mid);
      FollowingKeepsInvariant<()>(View(), MilestonePayouts.ClaimMilestone(View(), id, mid));
      hide PayClaim, CheckClaim, AllOthersClaimed, ClaimedEntry, ClaimAudit;
      ghost var before := View();
      var claim :- GuardClaim(id, mid);
      var e := entries[id];
      var paid :- PayClaim(bank, e.terms.token, config.admin, e.campaign.creator, claim);
      StoreClaim(id, mid, ClaimAudit(AuditOf(before, id), e.campaign.amountRaised, claim.rate, claim.pay, claim.feePay));
      totalRaised, bank := totalRaised - (claim.feePay + claim.pay), paid;
      return Ok(());
    }

    /** Marks the milestone claimed; the claim that leaves no other closes the campaign. */
    method StoreClaim(id: nat, mid: nat, ghost a: Audit)
      requires id in entries
      modifies this`entries, this`counters, this`audits
      ensures entries == old(entries)[id := ClaimedEntry(old(entries[id]), mid)]
      ensures audits == old(audits)[id := a]
      ensures counters == if AllOthersClaimed(old(entries[id]).milestones, mid)
                          then old(counters).(active := Decrement(old(counters).active)) else old(counters)
    {
      hide AllOthersClaimed;
      audits := audits[id := a];
      var e := entries[id];
      var last := OthersClaimed(e.milestones, mid);
      if last {
        e := e.(campaign := e.campaign.(fundsWithdrawn := true, isActive := false));
        counters := counters.(active := Decrement(counters.active));
      }
      entries := entries[id := e.(milestones := e.milestones.(claimed := e.milestones.claimed + {mid}))];
    }

    // ---- Revenue ------------------------------------------------------------------------------

    method DepositRevenue(id: nat, amount: int) returns (r: Result<()>)
      requires Valid()
      modifies this`entries, this`audits, this`bank
      ensures Follows(RevenueSharing.DepositRevenue(old(View()), id, amount), old(View()), View(), r)
      ensures Valid() && Evolves(old(View()), View())
    {
      hide Inv, Evolves, Sound;
      RevenueProofs.DepositRevenueSound(View(), id, amount);
      FollowingKeepsInvariant<()>(View(), RevenueSharing.DepositRevenue(View(), id, amount));
      hide Transfer;
      :- Need(id in entries, CampaignNotFound);
      var e := entries[id];
      :- Need(CanSign(e.campaign.creator), AuthFailed);
      :- Need(!paused, ContractPaused);
      :- Need(0 < amount, ValidationFailed);
      :- Need(!e.campaign.isCancelled, CampaignNotActive);
      :- Need(e.campaign.fundsWithdrawn, ValidationFailed);
      :- Need(e.campaign.hasRevenueSharing, RevenueSharingNotEnabled);
      :- Need(e.campaign.amountRaised != 0, AmountRaisedIsZero);
      :- Need(FitsI128(e.revenue.pool + amount), Overflow);
      var paid :- Transfer(bank, e.terms.token, e.campaign.creator, SELF, amount);
      audits := audits[id := AuditOf(View(), id)];
      entries := entries[id := e.(revenue := e.revenue.(pool := e.revenue.pool + amount))];
      bank := paid;
      return Ok(());
    }

    /** The checks and the amount of `claim_revenue`, and the revenue record it leaves. */
    method SettleClaim(e: Entry, who: Address) returns (r: Result<(Revenue, int)>)
      ensures r == match Claim(e, who) case Ok(e') => Ok((e'.revenue, Claimable(e, who))) case Err(x) => Err(x)
    {
      var c, v := e.campaign, e.revenue;
      :- Need(!c.isCancelled, CampaignNotActive);
      :- Need(c.hasRevenueSharing, ValidationFailed);
      :- Need(c.fundsWithdrawn, ValidationFailed);
      var contribution := Get(e.ledger.contributions, who);
      :- Need(contribution != 0, ValidationFailed);
      :- Need(c.effectiveRaised != 0, AmountRaisedIsZero);
      :- Need(DueFits(e, who), Overflow);
      var due := contribution * v.pool * c.revenueShare / c.effectiveRaised / BPS;
      var already := Get(v.claimed, who);
      var claimable := due - already;
      :- Need(0 < claimable, NoFundsToWithdraw);
      var first := already == 0;
      :- Need(first ==> v.claimants < U32_MAX, Overflow);
      if first && 0 < e.ledger.contributorCount && e.ledger.contributorCount <= v.claimants + 1 {
        if !(c.revenueShare <= BPS && FitsI128(v.pool * (BPS - c.revenueShare))) {
          return Err(Overflow);
        }
        var rest := v.pool - v.pool * (BPS - c.revenueShare) / BPS - v.distributed;
        if claimable < rest {
          claimable := rest;
        }
      }
      :- Need(FitsI128(already + claimable) && FitsI128(v.distributed + claimable), Overflow);
      v := v.(claimed := v.claimed[who := already + claimable], distributed := v.distributed + claimable);
      if first {
        v := v.(claimants := v.claimants + 1);
      }
      return Ok((v, claimable));
    }

    method ClaimRevenue(id: nat, who: Address) returns (r: Result<()>)
      requires Valid()
      modifies this`entries, this`audits, this`bank
      ensures Follows(RevenueSharing.ClaimRevenue(old(View()), id, who), old(View()), View(), r)
      ensures Valid() && Evolves(old(View()), View())
    {
      hide Inv, Evolves, Sound;
      RevenueProofs.ClaimRevenueSound(View(), id, who);
      FollowingKeepsInvariant<()>(View(), RevenueSharing.ClaimRevenue(View(), id, who));
      hide Transfer, Claimable, LastClaimant, DueTo, DueFits, RevenueSharing.ClaimFits;
      :- Need(CanSign(who), AuthFailed);
      :- Need(!paused, ContractPaused);
      :- Need(id in entries, CampaignNotFound);
      var e := entries[id];
      var claim := SettleClaim(e, who);
      if claim.Err? {
        return Err(claim.error);
      }
      var (revenue, claimable) := claim.value;
      var paid :- Transfer(bank, e.terms.token, SELF, who, claimable);
      audits := audits[id := AuditClaim(AuditOf(View(), id), e, who)];
      entries := entries[id := e.(revenue := revenue)];
      bank := paid;
      return Ok(());
    }

    method ClaimCreatorRevenue(id: nat) returns (r: Result<()>)
      requires Valid()
      modifies this`entries, this`audits, this`bank
      ensures Follows(RevenueSharing.ClaimCreatorRevenue(old(View()), id), old(View()), View(), r)
      ensures Valid() && Evolves(old(View()), View())
    {
      hide Inv, Evolves, Sound;
      RevenueProofs.ClaimCreatorRevenueSound(View(), id);
      FollowingKeepsInvariant<()>(View(), RevenueSharing.ClaimCreatorRevenue(View(), id));
      hide Transfer;
      :- Need(id in entries, CampaignNotFound);
      var e := entries[id];
      var c, v := e.campaign, e.revenue;
      :- Need(CanSign(c.creator), AuthFailed);
      :- Need(!paused, ContractPaused);
      :- Need(c.hasRevenueSharing, ValidationFailed);
      :- Need(c.revenueShare <= BPS, ValidationFailed);
      :- Need(FitsI128(v.pool * (BPS - c.revenueShare)), Overflow);
      var claimable := v.pool * (BPS - c.revenueShare) / BPS - v.creatorClaimed;
      :- Need(0 < claimable, NoFundsToWithdraw);
      var paid :- Transfer(bank, e.terms.token, SELF, c.creator, claimable);
      audits := audits[id := AuditOf(View(), id)];
      entries := entries[id := e.(revenue := v.(creatorClaimed := v.creatorClaimed + claimable))];
      bank := paid;
      return Ok(());
    }

    // ---- Votes and verification ----------------------------------------------------------------

    method CastVote(id: nat, voter: Address, approve: bool) returns (r: Result<()>)
      requires Valid()
      modifies this`entries, this`audits
      ensures Follows(Governance.CastVote(old(View()), id, voter, approve), old(View()), View(), r)
      ensures Valid() && Evolves(old(View()), View())
    {
      hide Inv, Evolves, Sound;
      GovernanceProofs.CastVoteSound(View(), id, voter, approve);
      FollowingKeepsInvariant<()>(View(), Governance.CastVote(View(), id, voter, approve));
      if paused {
        return Err(ContractPaused);
      }
      :- Need(CanSign(voter), AuthFailed);
      :- Need(id in entries, CampaignNotFound);
      var e := entries[id];
      :- Need(!e.campaign.fundsWithdrawn, CampaignNotActive);
      :- Need(IsOpen(e.campaign), CampaignNotActive);
      :- Need(now <= e.campaign.deadline, DeadlinePassed);
      :- Need(!e.campaign.isVerified, CampaignAlreadyVerified);
      var balance := Balance(bank, config.platformToken, voter);
      :- Need(0 < balance, NotTokenHolder);
      :- Need(config.minVotingBalance <= balance, NotTokenHolder);
      var v := e.votes;
      :- Need(voter !in v.voted, AlreadyVoted);
      :- Need(CountFits(v, approve), Overflow);
      if approve {
        v := v.(approve := v.approve + 1, approveWeight := v.approveWeight + 1);
      } else {
        v := v.(reject := v.reject + 1, rejectWeight := v.rejectWeight + 1);
      }
      v := v.(voted := v.voted + {voter});
      audits := audits[id := AuditOf(View(), id).(ballots := AuditOf(View(), id).ballots[voter := approve])];
      entries := entries[id := e.(votes := v)];
      return Ok(());
    }

    /** `admin_verify`. */
    method AdminVerify(id: nat) returns (r: Result<()>)
      modifies this`entries, this`audits, this`counters
      ensures Follows(Governance.AdminVerify(old(View()), id), old(View()), View(), r)
    {
      if id !in entries {
        return Err(CampaignNotFound);
      }
      var e := entries[id];
      :- Need(!e.campaign.isCancelled, CampaignNotActive);
      :- Need(!e.campaign.isVerified, AdminVerificationConflict);
      :- Need(IsOpen(e.campaign), CampaignNotActive);
      :- Need(Allowed(PhaseOf(e.campaign), Verified), InvalidStateTransition);
      audits := audits[id := AuditOf(View(), id)];
      entries := entries[id := e.(campaign := e.campaign.(isVerified := true))];
      counters := counters.(verified := counters.verified + 1);
      return Ok(());
    }

    method VerifyCampaign(id: nat) returns (r: Result<()>)
      requires Valid()
      modifies this`entries, this`audits, this`counters
      ensures Follows(Governance.VerifyCampaign(old(View()), id), old(View()), View(), r)
      ensures Valid() && Evolves(old(View()), View())
    {
      hide Inv, Evolves, Sound;
      GovernanceProofs.VerifyCampaignSound(View(), id);
      FollowingKeepsInvariant<()>(View(), Governance.VerifyCampaign(View(), id));
      hide Governance.AdminVerify;
      :- Need(CanSign(config.admin), AuthFailed);
      :- Need(!paused, ContractPaused);
      r := AdminVerify(id);
    }

    /** Best effort over the first 50 ids: successes are kept when others fail. */
    method VerifyCampaigns(ids: seq<nat>) returns (r: Result<(seq<nat>, seq<nat>)>)
      requires Valid()
      modifies this`entries, this`audits, this`counters
      ensures Follows(Governance.VerifyCampaigns(old(View()), ids), old(View()), View(), r)
      ensures r.Ok? ==> (r.value.0, r.value.1) == (VerifyAll(old(View()), Batch(ids)).1, VerifyAll(old(View()), Batch(ids)).2)
      ensures Valid() && Evolves(old(View()), View())
    {
      hide Inv, Evolves, Sound;
      GovernanceProofs.VerifyCampaignsSound(View(), ids);
      FollowingKeepsInvariant<(seq<nat>, seq<nat>)>(View(), Governance.VerifyCampaigns(View(), ids));
      hide Governance.AdminVerify;
      ghost var before := View();
      :- Need(CanSign(config.admin), AuthFailed);
      :- Need(!paused, ContractPaused);
      var batch := Batch(ids);
      var verified: seq<nat>, failed: seq<nat> := [], [];
      for i := 0 to |batch|
        invariant VerifyAll(before, batch[..i]) == (View(), verified, failed)
      {
        PrefixStep(batch, i);
        var one := AdminVerify(batch[i]);
        match one
        case Ok(_) => verified := verified + [batch[i]];
        case Err(_) => failed := failed + [batch[i]];
      }
      assert batch[..|batch|] == batch;
      return Ok((verified, failed));
    }

    method VerifyWithVotes(id: nat) returns (r: Result<()>)
      requires Valid()
      modifies this`entries, this`audits, this`counters
      ensures Follows(Governance.VerifyWithVotes(old(View()), id), old(View()), View(), r)
      ensures Valid() && Evolves(old(View()), View())
    {
      hide Inv, Evolves, Sound;
      GovernanceProofs.VerifyWithVotesSound(View(), id);
      FollowingKeepsInvariant<()>(View(), Governance.VerifyWithVotes(View(), id));
      if paused {
        return Err(ContractPaused);
      }
      :- Need(id in entries, CampaignNotFound);
      var e := entries[id];
      var c, v := e.campaign, e.votes;
      :- Need(!c.isCancelled, CampaignNotActive);
      :- Need(!c.isVerified, CommunityVerificationConflict);
      :- Need(IsOpen(c), CampaignNotActive);
      var total := v.approve + v.reject;
      :- Need(total <= U32_MAX, Overflow);
      :- Need(config.quorum <= total, VotingQuorumNotMet);
      var approvalBps := if total == 0 then 0 else v.approve * BPS / total;
      :- Need(ThresholdFor(config, c.category) <= approvalBps, VotingThresholdNotMet);
      :- Need(Allowed(PhaseOf(c), Verified), InvalidStateTransition);
      audits := audits[id := AuditOf(View(), id)];
      entries := entries[id := e.(campaign := c.(isVerified := true))];
      counters := counters.(verified := counters.verified + 1);
      return Ok(());
    }

    method PurgeVotingState(id: nat, voters: seq<Address>, finalize: bool) returns (r: Result<()>)
      requires Valid()
      modifies this`entries, this`audits
      ensures Follows(Governance.PurgeVotingState(old(View()), id, voters, finalize), old(View()), View(), r)
      ensures Valid() && Evolves(old(View()), View())
    {
      hide Inv, Evolves, Sound;
      GovernanceProofs.PurgeSound(View(), id, voters, finalize);
      FollowingKeepsInvariant<()>(View(), Governance.PurgeVotingState(View(), id, voters, finalize));
      hide Members;
      :- Need(CanSign(config.admin), AuthFailed);
      :- Need(id in entries, CampaignNotFound);
      var e := entries[id];
      :- Need(e.campaign.fundsWithdrawn || e.campaign.isCancelled, ValidationFailed);
      :- Need(0 < |voters| <= MAX_VOTERS_PER_PURGE, ValidationFailed);
      var left := WithoutVoters(e.votes.voted, voters);
      var v := e.votes.(voted := left);
      audits := audits[id := if finalize then AuditOf(View(), id).(ballots := map[]) else AuditOf(View(), id)];
      if finalize {
        v := WithoutTally(v);
      }
      entries := entries[id := e.(votes := v)];
      return Ok(());
    }

    // ---- Edits --------------------------------------------------------------------------------

    method UpdateDescription(id: nat, description: string) returns (r: Result<()>)
      requires Valid()
      modifies this`entries, this`audits, this`counters
      ensures Follows(Governance.UpdateDescription(old(View()), id, description), old(View()), View(), r)
      ensures Valid() && Evolves(old(View()), View())
    {
      hide Inv, Evolves, Sound;
      GovernanceProofs.UpdateDescriptionSound(View(), id, description);
      FollowingKeepsInvariant<()>(View(), Governance.UpdateDescription(View(), id, description));
      if id !in entries {
        return Err(CampaignNotFound);
      }
      var e := entries[id];
      :- Need(CanSign(e.campaign.creator), AuthFailed);
      :- Need(!paused, ContractPaused);
      :- Need(IsOpen(e.campaign), CampaignNotActive);
      :- Need(0 < |description| <= DESCRIPTION_MAX_LEN, ValidationFailed);
      var wasVerified, v := e.campaign.isVerified, e.votes;
      ghost var ballots := AuditOf(View(), id).ballots;
      if wasVerified {
        counters := counters.(verified := Decrement(counters.verified));
        v := WithoutTally(v);
        ballots := map[];
      }
      audits := audits[id := AuditOf(View(), id).(ballots := ballots)];
      entries := entries[id := e.(campaign := e.campaign.(description := description, isVerified := false), votes := v)];
      return Ok(());
    }

    method ExtendDeadline(id: nat, days: nat) returns (r: Result<()>)
      requires Valid()
      modifies this`entries, this`audits
      ensures Follows(Governance.ExtendDeadline(old(View()), id, days), old(View()), View(), r)
      ensures Valid() && Evolves(old(View()), View())
    {
      hide Inv, Evolves, Sound;
      GovernanceProofs.ExtendDeadlineSound(View(), id, days);
      FollowingKeepsInvariant<()>(View(), Governance.ExtendDeadline(View(), id, days));
      if id !in entries {
        return Err(CampaignNotFound);
      }
      var e := entries[id];
      var c := e.campaign;
      :- Need(CanSign(c.creator), AuthFailed);
      :- Need(!paused, ContractPaused);
      :- Need(IsOpen(c), CampaignNotActive);
      :- Need(!c.deadlineExtended, DeadlineAlreadyExtended);
      :- Need(now < c.deadline, DeadlinePassed);
      :- Need(0 < days <= MAX_EXTENSION_DAYS, ExtensionTooLong);
      var deadline := c.deadline + days * SECONDS_PER_DAY;
      :- Need(FitsU64(deadline), Overflow);
      :- Need(e.terms.startTime <= deadline, Overflow);
      var total := (deadline - e.terms.startTime) / SECONDS_PER_DAY;
      :- Need(total <= DurationCap(config, c.category), InvalidDuration);
      :- Need(total <= MAX_DURATION_DAYS, InvalidDuration);
      audits := audits[id := AuditOf(View(), id)];
      entries := entries[id := e.(campaign := c.(deadline := deadline, deadlineExtended := true))];
      return Ok(());
    }

    // ---- Creation, transfer, tags --------------------------------------------------------------

    /** The checks of `create_campaign`, and the deadline it sets. */
    method GuardCreate(p: CreateParams, token: Option<Address>) returns (r: Result<nat>)
      ensures r == CheckCreate(View(), p, token)
    {
      hide CheckParams;
      :- Need(CanSign(p.creator), AuthFailed);
      :- Need(!paused, ContractPaused);
      :- Need(!config.creationDisabled, CreationDisabled);
      :- CheckParams(config, p);
      :- CheckToken(config, token);
      :- Need(counters.campaigns + 1 <= U32_MAX, Overflow);
      r := CalculateDeadline(now, p.durationDays);
    }

    method CreateCampaign(p: CreateParams, token: Option<Address>) returns (r: Result<nat>)
      requires Valid()
      modifies this`entries, this`audits, this`counters, this`index
      ensures Follows(Registry.CreateCampaign(old(View()), p, token), old(View()), View(), r)
      ensures r.Ok? ==> r.value == old(counters.campaigns) + 1
      ensures Valid() && Evolves(old(View()), View())
    {
      hide Inv, Evolves, Sound;
      RegistryProofs.CreateCampaignSound(View(), p, token);
      FollowingKeepsInvariant<nat>(View(), Registry.CreateCampaign(View(), p, token));
      hide CheckCreate, NewEntry, Filed, Categorized;
      var deadline :- GuardCreate(p, token);
      var id := counters.campaigns + 1;
      StoreCampaign(id, p, token, deadline);
      audits := audits[id := NO_AUDIT];
      counters := counters.(campaigns := id, active := counters.active + 1);
      FileByCategory(p.category, id);
      FileUnder(p.creator, id);
      return Ok(id);
    }

    method StoreCampaign(id: nat, p: CreateParams, token: Option<Address>, deadline: nat)
      modifies this`entries
      ensures entries == old(entries)[id := NewEntry(old(View()), id, p, token, deadline)]
    {
      var terms := Terms(token.GetOr(config.platformToken), now, config.vestingDelayDays, config.vestingBps);
      entries := entries[id := Entry(NewCampaign(id, p, deadline), terms, Ledger(map[], map[], 0, map[], None, 0, 0),
                                     Milestones([], {}), None, Revenue(0, map[], 0, 0, 0), NO_VOTES, [])];
    }

    /** Appends to the category's last bucket. */
    method FileByCategory(category: Category, id: nat)
      modifies this`index
      ensures index == Categorized(old(index), id, category)
    {
      var b := ByCategory(index, category);
      var i := b.count / BUCKET_SIZE;
      index := index.(categories := index.categories[category := Buckets.Buckets(b.count + 1, b.chunks[i := b.Chunk(i) + [id]])]);
    }

    /** Appends to a creator's last bucket and records the position and the owner. */
    method FileUnder(creator: Address, id: nat)
      modifies this`index
      ensures index == Filed(old(index), id, creator)
    {
      var b := ByCreator(index, creator);
      var i := b.count / BUCKET_SIZE;
      var bucket := b.Chunk(i) + [id];
      index := index.(creators := index.creators[creator := Buckets.Buckets(b.count + 1, b.chunks[i := bucket])]);
      index := index.(positions := index.positions[(creator, id) := (i, |bucket| - 1)]);
      index := index.(creatorOf := index.creatorOf[id := creator]);
    }

    /** Swap-removal: the last campaign of the bucket fills the hole, the bucket is popped, the position dropped. */
    method Unfile(creator: Address, id: nat)
      requires Locatable(index, creator, id)
      modifies this`index
      ensures index == Unfiled(old(index), id, creator)
    {
      var (i, slot) := index.positions[(creator, id)];
      var b := ByCreator(index, creator);
      var bucket := b.Chunk(i);
      var last := |bucket| - 1;
      var moved := bucket[last];
      if slot != last {
        bucket := bucket[slot := moved];
        index := index.(positions := index.positions[(creator, moved) := (i, slot)]);
      }
      bucket := bucket[..last];
      assert bucket == Buckets.SwapOut(b.Chunk(i), slot);
      index := index.(creators := index.creators[creator := Buckets.Buckets(Decrement(b.count), b.chunks[i := bucket])]);
      index := index.(positions := index.positions - {(creator, id)});
    }

    method InitiateTransfer(id: nat, newCreator: Address) returns (r: Result<()>)
      requires Valid()
      modifies this`entries, this`audits
      ensures Follows(Registry.InitiateTransfer(old(View()), id, newCreator), old(View()), View(), r)
      ensures Valid() && Evolves(old(View()), View())
    {
      hide Inv, Evolves, Sound;
      GovernanceProofs.TransferOfferSound(View(), id, newCreator);
      FollowingKeepsInvariant<()>(View(), Registry.InitiateTransfer(View(), id, newCreator));
      if id !in entries {
        return Err(CampaignNotFound);
      }
      var e := entries[id];
      :- Need(CanSign(e.campaign.creator), AuthFailed);
      :- Need(!paused, ContractPaused);
      :- Need(IsOpen(e.campaign), CampaignNotActive);
      :- Need(!e.campaign.fundsWithdrawn, CampaignNotActive);
      :- Need(newCreator != e.campaign.creator, InvalidNewOwner);
      :- Need(e.campaign.pendingCreator.None?, TransferAlreadyPending);
      audits := audits[id := AuditOf(View(), id)];
      entries := entries[id := e.(campaign := e.campaign.(pendingCreator := Some(newCreator)))];
      return Ok(());
    }

    /** The checks of `accept_campaign_transfer`, and the new creator. */
    method GuardAccept(id: nat) returns (r: Result<Address>)
      ensures r == CheckAccept(View(), id)
    {
      if id !in entries {
        return Err(CampaignNotFound);
      }
      var e := entries[id];
      var c := e.campaign;
      :- Need(IsOpen(c), CampaignNotActive);
      :- Need(!paused, ContractPaused);
      :- Need(c.pendingCreator.Some?, NoTransferPending);
      var pending := c.pendingCreator.value;
      :- Need(CanSign(pending), AuthFailed);
      :- Need(pending != c.creator, InvalidNewOwner);
      :- Need((c.creator, id) in index.positions, ValidationFailed);
      var (i, slot) := index.positions[(c.creator, id)];
      var bucket := ByCreator(index, c.creator).Chunk(i);
      :- Need(slot < |bucket| && bucket[slot] == id, ValidationFailed);
      return Ok(pending);
    }

    method AcceptTransfer(id: nat) returns (r: Result<()>)
      requires Valid()
      modifies this`entries, this`audits, this`index
      ensures Follows(Registry.AcceptTransfer(old(View()), id), old(View()), View(), r)
      ensures Valid() && Evolves(old(View()), View())
    {
      hide Inv, Evolves, Sound;
      RegistryProofs.AcceptTransferSound(View(), id);
      FollowingKeepsInvariant<()>(View(), Registry.AcceptTransfer(View(), id));
      hide Filed, Unfiled, CheckAccept, Handed;
      ghost var before := View();
      var pending :- GuardAccept(id);
      Unfile(entries[id].campaign.creator, id);
      FileUnder(pending, id);
      audits := audits[id := AuditOf(before, id)];
      StoreCreator(id, pending);
      return Ok(());
    }

    method StoreCreator(id: nat, creator: Address)
      requires id in entries
      modifies this`entries
      ensures entries == old(entries)[id := Handed(old(entries[id]), creator)]
    {
      var e := entries[id];
      entries := entries[id := e.(campaign := e.campaign.(creator := creator, pendingCreator := None))];
    }

    method CancelTransfer(id: nat) returns (r: Result<()>)
      requires Valid()
      modifies this`entries, this`audits
      ensures Follows(Registry.CancelTransfer(old(View()), id), old(View()), View(), r)
      ensures Valid() && Evolves(old(View()), View())
    {
      hide Inv, Evolves, Sound;
      GovernanceProofs.TransferOfferSound(View(), id, SELF);
      FollowingKeepsInvariant<()>(View(), Registry.CancelTransfer(View(), id));
      if id !in entries {
        return Err(CampaignNotFound);
      }
      var e := entries[id];
      :- Need(CanSign(e.campaign.creator), AuthFailed);
      :- Need(!paused, ContractPaused);
      :- Need(e.campaign.pendingCreator.Some?, NoTransferPending);
      audits := audits[id := AuditOf(View(), id)];
      entries := entries[id := e.(campaign := e.campaign.(pendingCreator := None))];
      return Ok(());
    }

    method AddTag(id: nat, tag: string) returns (r: Result<()>)
      requires Valid()
      modifies this`entries, this`audits, this`index
      ensures Follows(Registry.AddTag(old(View()), id, tag), old(View()), View(), r)
      ensures Valid() && Evolves(old(View()), View())
    {
      hide Inv, Evolves, Sound;
      RegistryProofs.AddTagSound(View(), id, tag);
      FollowingKeepsInvariant<()>(View(), Registry.AddTag(View(), id, tag));
      if id !in entries {
        return Err(CampaignNotFound);
      }
      var e := entries[id];
      :- Need(CanSign(e.campaign.creator), AuthFailed);
      :- Need(!paused, ContractPaused);
      :- Need(IsOpen(e.campaign), CampaignNotActive);
      :- Need(0 < |tag| <= TAG_MAX_LEN, ValidationFailed);
      :- Need(|e.tags| < MAX_TAGS, ValidationFailed);
      :- Need(tag !in e.tags, ValidationFailed);
      var b := ByTag(index, tag);
      var i := b.count / BUCKET_SIZE;
      index := index.(tags := index.tags[tag := Buckets.Buckets(b.count + 1, b.chunks[i := b.Chunk(i) + [id]])]);
      audits := audits[id := AuditOf(View(), id)];
      entries := entries[id := e.(tags := e.tags + [tag])];
      return Ok(());
    }

    // ---- Settings -----------------------------------------------------------------------------

    method UpdatePlatformFee(fee: nat) returns (r: Result<()>)
      requires Valid()
      modifies this`config
      ensures Follows(Governance.UpdatePlatformFee(old(View()), fee), old(View()), View(), r)
      ensures Valid() && Evolves(old(View()), View())
    {
      hide Inv, Evolves, Sound;
      GovernanceProofs.UpdatePlatformFeeSound(View(), fee);
      FollowingKeepsInvariant<()>(View(), Governance.UpdatePlatformFee(View(), fee));
      if !CanSign(config.admin) {
        return Err(AuthFailed);
      }
      :- Need(fee <= PLATFORM_FEE_MAX_BPS, InvalidPlatformFee);
      config := config.(platformFee := fee);
      return Ok(());
    }

    method SetFeeOverride(id: nat, admin: Address, fee: nat) returns (r: Result<()>)
      requires Valid()
      modifies this`entries, this`audits
      ensures Follows(Governance.SetFeeOverride(old(View()), id, admin, fee), old(View()), View(), r)
      ensures Valid() && Evolves(old(View()), View())
    {
      hide Inv, Evolves, Sound;
      GovernanceProofs.SetFeeOverrideSound(View(), id, admin, fee);
      FollowingKeepsInvariant<()>(View(), Governance.SetFeeOverride(View(), id, admin, fee));
      if admin != config.admin {
        return Err(NotAuthorized);
      }
      :- Need(CanSign(admin), AuthFailed);
      :- Need(id in entries, CampaignNotFound);
      :- Need(fee <= PLATFORM_FEE_MAX_BPS, InvalidPlatformFee);
      var e := entries[id];
      audits := audits[id := AuditOf(View(), id)];
      entries := entries[id := e.(campaign := e.campaign.(feeOverride := Some(fee)))];
      return Ok(());
    }

    method SetVestingParams(admin: Address, days: nat, bps: nat) returns (r: Result<()>)
      requires Valid()
      modifies this`config
      ensures Follows(Governance.SetVestingParams(old(View()), admin, days, bps), old(View()), View(), r)
      ensures Valid() && Evolves(old(View()), View())
    {
      hide Inv, Evolves, Sound;
      GovernanceProofs.SetVestingParamsSound(View(), admin, days, bps);
      FollowingKeepsInvariant<()>(View(), Governance.SetVestingParams(View(), admin, days, bps));
      if admin != config.admin {
        return Err(NotAuthorized);
      }
      :- Need(CanSign(admin), AuthFailed);
      :- Need(!paused, ContractPaused);
      :- Need(bps <= BPS && days <= MAX_DURATION_DAYS, ValidationFailed);
      :- Need(0 < days || bps == 0, InvalidVestingDelay);
      config := config.(vestingDelayDays := days, vestingBps := bps);
      return Ok(());
    }

    method SetCategoryDurationCap(admin: Address, category: Category, days: nat) returns (r: Result<()>)
      requires Valid()
      modifies this`config
      ensures Follows(Governance.SetCategoryDurationCap(old(View()), admin, category, days), old(View()), View(), r)
      ensures Valid() && Evolves(old(View()), View())
    {
      hide Inv, Evolves, Sound;
      GovernanceProofs.SetCategoryDurationCapSound(View(), admin, category, days);
      FollowingKeepsInvariant<()>(View(), Governance.SetCategoryDurationCap(View(), admin, category, days));
      if admin != config.admin {
        return Err(NotAuthorized);
      }
      :- Need(CanSign(admin), AuthFailed);
      :- Need(1 <= days <= MAX_DURATION_DAYS, ValidationFailed);
      config := config.(durationCaps := config.durationCaps[category := days]);
      return Ok(());
    }
  }

  lemma ContributeCases(s: State, id: nat, who: Address, amount: int)
    ensures var r := Contributions.Contribute(s, id, who, amount);
            if !CanSign(who) then r == Err(AuthFailed)
            else if s.paused then r == Err(ContractPaused)
            else
              match ContributeItem(s, who, id, amount)
              case Err(e) => r == Err(e)
              case Ok(s1) =>
                && id in s1.entries
                && match Transfer(s.bank, s1.entries[id].terms.token, who, SELF, amount)
                   case Err(e) => r == Err(e)
                   case Ok(b) => r == Ok(s1.(bank := b))
  {
    hide ContributeItem, Transfer;
    if ContributeItem(s, who, id, amount).Ok? {
      BatchProofs.ItemFrame(s, who, id, amount);
    }
  }

  lemma OwedNone(s: State)
    ensures Owed(s, []) == map[]
  {
  }

  lemma OwedNext(s: State, s': State, items: seq<Item>)
    requires items != [] && BatchProofs.SameTokens(s, s') && items[|items| - 1].0 in s.entries
    ensures items[|items| - 1].0 in s'.entries
    ensures var token := s'.entries[items[|items| - 1].0].terms.token;
            var owed := Owed(s, items[..|items| - 1]);
            Owed(s, items) == owed[token := Get(owed, token) + items[|items| - 1].1]
  {
  }

  lemma {:induction false} ItemsFail(s: State, who: Address, items: seq<Item>, n: nat)
    requires n <= |items| && ContributeItems(s, who, items[..n]).Err?
    ensures ContributeItems(s, who, items) == ContributeItems(s, who, items[..n])
    decreases |items|
  {
    hide ContributeItem;
    if n == |items| {
      assert items[..n] == items;
    } else {
      assert items[..|items| - 1][..n] == items[..n];
      ItemsFail(s, who, items[..|items| - 1], n);
    }
  }
}
