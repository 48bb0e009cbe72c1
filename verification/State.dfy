/**
 The contract's storage as one value. `Entry` groups every storage key that carries a campaign id;
 `State` adds the instance keys, the token ledgers and the clock. `Audit` holds history variables:
 no operation reads them, they only let the invariants speak about what happened.
 */
module State {
  import opened Types
  import Buckets

  // ---- Tokens -------------------------------------------------------------------------------

  /** Balances by (token, holder). */
  type Bank = map<(Address, Address), int>

  function Balance(bank: Bank, token: Address, who: Address): int {
    if (token, who) in bank then bank[(token, who)] else 0
  }

  function Credit(bank: Bank, token: Address, who: Address, amount: int): Bank {
    bank[(token, who) := Balance(bank, token, who) + amount]
  }

  function Transfer(bank: Bank, token: Address, from: Address, to: Address, amount: int): Result<Bank> {
    if 0 <= amount <= Balance(bank, token, from) then Ok(Credit(Credit(bank, token, from, -amount), token, to, amount))
    else Err(TransferFailed)
  }

  // ---- Storage under one campaign id --------------------------------------------------------

  /** Written once at creation. */
  datatype Terms = Terms(token: Address, startTime: nat, vestingDelayDays: nat, vestingBps: nat)

  datatype Ledger = Ledger(
    contributions: map<Address, int>,
    lifetime: map<Address, int>,
    contributorCount: nat,
    personalCaps: map<Address, int>,
    feeRecipient: Option<Address>,
    burstLedger: nat,
    burstCount: nat)

  datatype Milestones = Milestones(list: seq<Milestone>, claimed: set<nat>)

  datatype Revenue = Revenue(
    pool: int,
    claimed: map<Address, int>,
    creatorClaimed: int,
    distributed: int,
    claimants: nat)

  datatype Votes = Votes(approve: nat, reject: nat, approveWeight: nat, rejectWeight: nat, voted: set<Address>)

  datatype Entry = Entry(
    campaign: Campaign,
    terms: Terms,
    ledger: Ledger,
    milestones: Milestones,
    reserve: Option<Reserve>,
    revenue: Revenue,
    votes: Votes,
    tags: seq<string>)

  const NO_VOTES: Votes := Votes(0, 0, 0, 0, {})

  function Get(m: map<Address, int>, who: Address): int { if who in m then m[who] else 0 }

  // ---- History variables --------------------------------------------------------------------

  datatype Audit = Audit(
    creatorPaid: int,                   // milestone payouts to the creator
    feePaid: int,                       // milestone fee slices
    claimTerms: set<(int, nat)>,        // (amount raised, fee rate) of each milestone claim
    refundedBeforeCancel: int,          // refunds paid out before the cancellation
    ballots: map<Address, bool>,        // the votes the current tally counts
    claimPool: map<Address, int>,       // the revenue pool at each contributor's last claim
    sweeper: Option<Address>)           // who took the last-claimant branch

  const NO_AUDIT: Audit := Audit(0, 0, {}, 0, map[], map[], None)

  // ---- The whole contract -------------------------------------------------------------------

  datatype Config = Config(
    admin: Address,
    platformToken: Address,
    platformFee: nat,
    maxPerTransaction: int,
    minGoal: int,
    maxGoal: int,
    vestingDelayDays: nat,
    vestingBps: nat,
    creationDisabled: bool,
    durationCaps: map<Category, nat>,
    quorum: nat,
    approvalBps: nat,
    categoryApprovalBps: map<Category, nat>,
    minVotingBalance: int,
    allowedTokens: set<Address>)

  datatype Index = Index(
    creators: map<Address, Buckets.Buckets>,
    positions: map<(Address, nat), (nat, nat)>,
    creatorOf: map<nat, Address>,
    categories: map<Category, Buckets.Buckets>,
    tags: map<string, Buckets.Buckets>)

  function ByCreator(ix: Index, a: Address): Buckets.Buckets {
    if a in ix.creators then ix.creators[a] else Buckets.EMPTY
  }

  function ByCategory(ix: Index, c: Category): Buckets.Buckets {
    if c in ix.categories then ix.categories[c] else Buckets.EMPTY
  }

  function ByTag(ix: Index, t: string): Buckets.Buckets {
    if t in ix.tags then ix.tags[t] else Buckets.EMPTY
  }

  datatype Counters = Counters(campaigns: nat, active: nat, verified: nat, cancelled: nat)

  datatype State = State(
    now: nat,
    ledgerSeq: nat,
    paused: bool,
    config: Config,
    entries: map<nat, Entry>,
    audits: map<nat, Audit>,
    counters: Counters,
    totalRaised: int,
    bank: Bank,
    index: Index)

  function AuditOf(s: State, id: nat): Audit {
    if id in s.audits then s.audits[id] else NO_AUDIT
  }

  /** Overwrites what is stored under one campaign id. */
  function Put(s: State, id: nat, e: Entry, a: Audit): State {
    s.(entries := s.entries[id := e], audits := s.audits[id := a])
  }

  // ---- src/lifecycle.rs ---------------------------------------------------------------------

  datatype Phase = Active | Verified | Withdrawn | Cancelled

  function PhaseOf(c: Campaign): Phase {
    if c.isCancelled then Cancelled
    else if c.fundsWithdrawn then Withdrawn
    else if c.isVerified then Verified
    else Active
  }

  predicate Allowed(from: Phase, to: Phase) {
    || (from == Active && to == Verified)
    || (from == Active && to == Cancelled)
    || (from == Verified && to == Cancelled)
    || (from == Verified && to == Withdrawn)
  }

  function GetEntry(s: State, id: nat): Result<Entry> {
    if id in s.entries then Ok(s.entries[id]) else Err(CampaignNotFound)
  }

  /** `require_active_campaign`. */
  predicate IsOpen(c: Campaign) { !c.isCancelled && c.isActive }

  /** The contract itself never authorizes a call. */
  predicate CanSign(who: Address) { who != SELF }

  function CalculateDeadline(now: nat, days: nat): Result<nat> {
    if !FitsU64(days * SECONDS_PER_DAY) then Err(ValidationFailed)
    else
      :- Need(FitsU64(now + days * SECONDS_PER_DAY), ValidationFailed);
      Ok(now + days * SECONDS_PER_DAY)
  }

  function Members(xs: seq<Address>): set<Address> { set x | x in xs }

  function Decrement(n: nat): nat { if n == 0 then 0 else n - 1 }

  /** `amount * bps / 10000`, rounded down. */
  function Slice(amount: int, bps: nat): int { amount * bps / BPS }

  /** `amount * bps / 10000`, rounded up. */
  function SliceUp(amount: int, bps: nat): int { (amount * bps + BPS_CEIL_OFFSET) / BPS }

  function FeeRate(config: Config, c: Campaign): nat { c.feeOverride.GetOr(config.platformFee) }
}
