/** src/contributions.rs as functions from the state before a call to its result. */
module Contributions {
  import opened Types
  import opened State

  // ---- The checks one contribution passes ---------------------------------------------------

  /** `max_contribution_per_user == 0` means no cap. */
  function CheckCaps(c: Campaign, lifetime: int, amount: int): Outcome {
    if c.maxPerUser <= 0 then Pass
    else if !FitsI128(lifetime + amount) then Fail(Overflow)
    else Need(lifetime + amount <= c.maxPerUser, ContributionCapExceeded)
  }

  function CheckTransactionCap(config: Config, amount: int): Outcome {
    Need(config.maxPerTransaction <= 0 || amount <= config.maxPerTransaction, ValidationFailed)
  }

  function CheckPersonalCap(l: Ledger, who: Address, amount: int): Outcome {
    if who !in l.personalCaps then Pass
    else if !FitsI128(Get(l.contributions, who) + amount) then Fail(Overflow)
    else Need(Get(l.contributions, who) + amount <= l.personalCaps[who], ContributionCapExceeded)
  }

  /** The burst record (ledger, count) to store, or the refusal of a huge or bursting contribution. */
  function BurstGuard(c: Campaign, l: Ledger, ledgerSeq: nat, amount: int): Result<(nat, nat)> {
    if !(FitsI128(amount * BPS) && FitsI128(c.fundingGoal * AUTO_PAUSE_SINGLE_BPS)) then Err(Overflow)
    else
      :- Need(amount * BPS <= c.fundingGoal * AUTO_PAUSE_SINGLE_BPS, ContractPaused);
      :- Need(FitsI128(c.amountRaised * BPS) && FitsI128(c.fundingGoal * BURST_CHECK_MIN_RAISED_BPS), Overflow);
      if c.amountRaised * BPS <= c.fundingGoal * BURST_CHECK_MIN_RAISED_BPS then
        Ok((l.burstLedger, l.burstCount))
      else
        var count := if ledgerSeq == l.burstLedger then l.burstCount + 1 else 1;
        :- Need(count <= AUTO_PAUSE_BURST, ContractPaused);
        Ok((ledgerSeq, count))
  }

  predicate AccountingFits(totalRaised: int, e: Entry, who: Address, amount: int) {
    && FitsI128(e.campaign.amountRaised + amount)
    && FitsI128(e.campaign.effectiveRaised + amount)
    && FitsI128(Get(e.ledger.contributions, who) + amount)
    && FitsI128(Get(e.ledger.lifetime, who) + amount)
    && FitsI128(totalRaised + amount)
  }

  // ---- Accounting ---------------------------------------------------------------------------

  function AccountedCampaign(c: Campaign, amount: int): Campaign {
    c.(amountRaised := c.amountRaised + amount, effectiveRaised := c.effectiveRaised + amount)
  }

  /** `first`: nothing has been raised yet, so the fee recipient is pinned to the admin in place. */
  function AccountedLedger(l: Ledger, first: bool, admin: Address, who: Address, amount: int, burst: (nat, nat)): Ledger {
    Ledger(
      l.contributions[who := Get(l.contributions, who) + amount],
      l.lifetime[who := Get(l.lifetime, who) + amount],
      if Get(l.lifetime, who) == 0 then l.contributorCount + 1 else l.contributorCount,
      l.personalCaps,
      if first then Some(admin) else l.feeRecipient,
      burst.0, burst.1)
  }

  function Accounted(e: Entry, admin: Address, who: Address, amount: int, burst: (nat, nat)): Entry {
    e.(campaign := AccountedCampaign(e.campaign, amount),
       ledger := AccountedLedger(e.ledger, e.campaign.amountRaised == 0, admin, who, amount, burst))
  }

  /** One item's checks, and the burst record to store. */
  function CheckItem(s: State, who: Address, id: nat, amount: int): (r: Result<(nat, nat)>)
    ensures r.Ok? ==> id in s.entries && 0 < amount
  {
    if amount <= 0 then Err(ContributionMustBePositive)
    else
      var e :- GetEntry(s, id);
      :- Need(e.campaign.isVerified, CampaignNotVerified);
      :- Need(IsOpen(e.campaign), CampaignNotActive);
      :- Need(who != e.campaign.creator, NotAuthorized);
      :- Need(s.now <= e.campaign.deadline, DeadlinePassed);
      :- CheckTransactionCap(s.config, amount);
      :- CheckCaps(e.campaign, Get(e.ledger.lifetime, who), amount);
      :- CheckPersonalCap(e.ledger, who, amount);
      BurstGuard(e.campaign, e.ledger, s.ledgerSeq, amount)
  }

  /** One item's checks and accounting; the tokens move afterwards. */
  function ContributeItem(s: State, who: Address, id: nat, amount: int): Result<State> {
    var burst :- CheckItem(s, who, id, amount);
    var e := s.entries[id];
    :- Need(AccountingFits(s.totalRaised, e, who, amount), Overflow);
    Ok(Put(s, id, Accounted(e, s.config.admin, who, amount, burst), AuditOf(s, id))
       .(totalRaised := s.totalRaised + amount))
  }

  function Contribute(s: State, id: nat, who: Address, amount: int): Result<State> {
    if !CanSign(who) then Err(AuthFailed)
    else
      :- Need(!s.paused, ContractPaused);
      var s1 :- ContributeItem(s, who, id, amount);
      var bank :- Transfer(s.bank, s.entries[id].terms.token, who, SELF, amount);
      Ok(s1.(bank := bank))
  }

  // ---- batch_contribute ---------------------------------------------------------------------

  type Item = (nat, int)

  /** The items' accounting in order, each seeing the one before. */
  function ContributeItems(s: State, who: Address, items: seq<Item>): Result<State> {
    if items == [] then Ok(s)
    else
      var s1 :- ContributeItems(s, who, items[..|items| - 1]);
      ContributeItem(s1, who, items[|items| - 1].0, items[|items| - 1].1)
  }

  function TokenOf(s: State, id: nat): Address {
    if id in s.entries then s.entries[id].terms.token else s.config.platformToken
  }

  /** What the items come to per token. */
  function Owed(s: State, items: seq<Item>): map<Address, int> {
    if items == [] then map[]
    else
      var before := Owed(s, items[..|items| - 1]);
      var token := TokenOf(s, items[|items| - 1].0);
      before[token := Get(before, token) + items[|items| - 1].1]
  }

  predicate Affordable(bank: Bank, who: Address, owed: map<Address, int>) {
    forall t | t in owed :: owed[t] <= Balance(bank, t, who)
  }

  /** What settling `owed` adds to the balance at `k`. */
  function Settled(who: Address, owed: map<Address, int>, k: (Address, Address)): int {
    if k.0 !in owed then 0 else if k.1 == who then -owed[k.0] else if k.1 == SELF then owed[k.0] else 0
  }

  function SettledKeys(who: Address, owed: map<Address, int>): set<(Address, Address)> {
    set t, a | t in owed && a in {who, SELF} :: (t, a)
  }

  /** Every owed amount moved from `who` to the contract. */
  function Settle(bank: Bank, who: Address, owed: map<Address, int>): Bank {
    map k | k in bank.Keys + SettledKeys(who, owed) :: Balance(bank, k.0, k.1) + Settled(who, owed, k)
  }

  function BatchContribute(s: State, who: Address, items: seq<Item>): Result<State> {
    if !CanSign(who) then Err(AuthFailed)
    else
      :- Need(!s.paused, ContractPaused);
      :- Need(0 < |items| <= MAX_BATCH_CONTRIBUTE, ValidationFailed);
      var s1 :- ContributeItems(s, who, items);
      var owed := Owed(s, items);
      :- Need(Affordable(s.bank, who, owed), TransferFailed);
      Ok(s1.(bank := Settle(s.bank, who, owed)))
  }

  // ---- claim_refund -------------------------------------------------------------------------

  /** Refunds are open: cancelled, or past the deadline short of the goal. */
  predicate Refundable(now: nat, c: Campaign) {
    c.isCancelled || (c.deadline < now && c.amountRaised < c.fundingGoal)
  }

  function Refunded(e: Entry, who: Address): Entry {
    var amount := Get(e.ledger.contributions, who);
    e.(campaign := e.campaign.(effectiveRaised := e.campaign.effectiveRaised - amount),
       ledger := e.ledger.(
         contributions := e.ledger.contributions - {who},
         personalCaps := e.ledger.personalCaps - {who},
         contributorCount := Decrement(e.ledger.contributorCount)),
       revenue := e.revenue.(claimed := e.revenue.claimed - {who}))
  }

  function RefundAudit(a: Audit, c: Campaign, amount: int): Audit {
    if c.isCancelled then a else a.(refundedBeforeCancel := a.refundedBeforeCancel + amount)
  }

  /** The checks of `claim_refund`, and the global total it leaves. */
  function CheckRefund(s: State, id: nat, who: Address): (r: Result<int>)
    ensures r.Ok? ==> id in s.entries
  {
    if !CanSign(who) then Err(AuthFailed)
    else
      :- Need(!s.paused, ContractPaused);
      var e :- GetEntry(s, id);
      :- Need(Refundable(s.now, e.campaign), ValidationFailed);
      var amount := Get(e.ledger.contributions, who);
      :- Need(amount != 0, NoFundsToWithdraw);
      :- Need(FitsI128(e.campaign.effectiveRaised - amount), Overflow);
      // A cancelled campaign left the global total in full when it was cancelled.
      var total := if e.campaign.isCancelled then s.totalRaised else s.totalRaised - amount;
      :- Need(e.campaign.isCancelled || FitsI128(total), Overflow);
      Ok(total)
  }

  function ClaimRefund(s: State, id: nat, who: Address): Result<State> {
    var total :- CheckRefund(s, id, who);
    var e := s.entries[id];
    var amount := Get(e.ledger.contributions, who);
    var bank :- Transfer(s.bank, e.terms.token, SELF, who, amount);
    Ok(Put(s, id, Refunded(e, who), RefundAudit(AuditOf(s, id), e.campaign, amount))
       .(totalRaised := total, bank := bank))
  }

  // ---- Personal caps ------------------------------------------------------------------------

  function SetPersonalCap(s: State, id: nat, who: Address, amount: int): Result<State> {
    if !CanSign(who) then Err(AuthFailed)
    else
      :- Need(0 <= amount, ValidationFailed);
      :- Need((if id in s.entries then Get(s.entries[id].ledger.lifetime, who) else 0) <= amount, ValidationFailed);
      var e :- GetEntry(s, id);
      :- Need(IsOpen(e.campaign), CampaignNotActive);
      :- Need(e.campaign.maxPerUser <= 0 || amount <= e.campaign.maxPerUser, ValidationFailed);
      Ok(Put(s, id, e.(ledger := e.ledger.(personalCaps := e.ledger.personalCaps[who := amount])), AuditOf(s, id)))
  }

  function RemovePersonalCap(s: State, id: nat, who: Address): Result<State> {
    if !CanSign(who) then Err(AuthFailed)
    else
      var e :- GetEntry(s, id);
      :- Need(IsOpen(e.campaign), CampaignNotActive);
      :- Need(who in e.ledger.personalCaps, PersonalCapNotFound);
      Ok(Put(s, id, e.(ledger := e.ledger.(personalCaps := e.ledger.personalCaps - {who})), AuditOf(s, id)))
  }
}
