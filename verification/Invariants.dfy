/** What holds of every reachable state, campaign by campaign and over the whole contract. */
module Invariants {
  import opened Types
  import opened State
  import opened Sums
  import opened MilestonePayouts
  import opened RevenueSharing
  import opened Governance
  import opened Contributions
  import Buckets
  import Registry

  // ---- One campaign -------------------------------------------------------------------------

  predicate CampaignInv(id: nat, c: Campaign) {
    && c.id == id
    && CanSign(c.creator)
    && c.pendingCreator != Some(c.creator)
    && 0 < c.fundingGoal
    && 0 <= c.maxPerUser
    && FitsI128(c.amountRaised)
    && c.feeOverride.GetOr(0) <= PLATFORM_FEE_MAX_BPS
    && c.revenueShare <= REVENUE_SHARE_MAX_BPS
    && (c.hasRevenueSharing <==> 0 < c.revenueShare)
    && (c.isActive <==> !c.isCancelled && !c.fundsWithdrawn)
    && !(c.isCancelled && c.fundsWithdrawn)
    && (c.fundsWithdrawn ==> c.fundingGoal <= c.amountRaised)
  }

  /** The campaign runs a whole number of days, at least one and at most 365. */
  predicate DurationInv(now: nat, c: Campaign, t: Terms) {
    && t.startTime <= now
    && t.startTime + SECONDS_PER_DAY <= c.deadline <= t.startTime + MAX_DURATION_DAYS * SECONDS_PER_DAY
    && (c.deadline - t.startTime) % SECONDS_PER_DAY == 0
    && t.vestingBps <= BPS
  }

  /** Every contribution still held is one contributor's whole lifetime contribution. */
  predicate PartOfLifetime(l: Ledger) {
    && (forall who | who in l.contributions :: who in l.lifetime && l.contributions[who] == l.lifetime[who])
    && (forall who | who in l.lifetime :: 0 < l.lifetime[who] && CanSign(who))
  }

  predicate CapsInv(maxPerUser: int, l: Ledger) {
    && (0 < maxPerUser ==> forall who | who in l.lifetime :: l.lifetime[who] <= maxPerUser)
    && (forall who | who in l.personalCaps ::
          && Get(l.contributions, who) <= l.personalCaps[who]
          && (0 < maxPerUser ==> l.personalCaps[who] <= maxPerUser))
  }

  ghost predicate LedgerInv(c: Campaign, l: Ledger) {
    && PartOfLifetime(l)
    && CapsInv(c.maxPerUser, l)
    && Sum(l.contributions) == c.effectiveRaised
    && Sum(l.lifetime) == c.amountRaised
    && l.contributorCount == |l.contributions|
    && (l.feeRecipient.Some? <==> 0 < c.amountRaised)
    && (l.feeRecipient.Some? ==> CanSign(l.feeRecipient.value))
  }

  /** Money comes back only out of a campaign that was cancelled or has failed for good. */
  predicate RefundInv(now: nat, c: Campaign, l: Ledger, a: Audit) {
    && (l.contributions == l.lifetime || Refundable(now, c))
    && (!c.isCancelled ==> a.refundedBeforeCancel == c.amountRaised - c.effectiveRaised)
    && (c.isCancelled ==> 0 <= a.refundedBeforeCancel <= c.amountRaised - c.effectiveRaised)
  }

  predicate MilestoneInv(c: Campaign, ms: Milestones) {
    && (ms.list != [] ==> WellFormed(ms.list) && |ms.list| <= MAX_MILESTONES)
    && (forall x | x in ms.claimed :: exists i | 0 <= i < |ms.list| :: ms.list[i].id == x)
    && (ms.claimed != {} ==> c.fundingGoal <= c.amountRaised)
    && (ms.list != [] ==> (c.fundsWithdrawn <==> AllClaimed(ms)))
  }

  predicate AllClaimed(ms: Milestones) {
    forall i | 0 <= i < |ms.list| :: ms.list[i].id in ms.claimed
  }

  predicate ReserveInv(e: Entry) {
    && (e.reserve.Some? ==> e.campaign.fundsWithdrawn && e.milestones.list == [] && 0 < e.reserve.value.amount)
  }

  ghost predicate VotesInv(c: Campaign, v: Votes, a: Audit) {
    && v.approveWeight == v.approve && v.rejectWeight == v.reject
    && v.approve == |Voters(a.ballots, true)| && v.reject == |Voters(a.ballots, false)|
    && (IsOpen(c) ==> a.ballots.Keys <= v.voted)
  }

  function Voters(ballots: map<Address, bool>, approve: bool): set<Address> {
    set v | v in ballots && ballots[v] == approve
  }

  // ---- Milestone payouts --------------------------------------------------------------------

  predicate Completed(ms: Milestones) { ms.list != [] && AllClaimed(ms) }

  /** What `claimed` milestones are due of one of the two shares; all of it once the last is claimed. */
  function Released(ms: Milestones, amount: int): int {
    if Completed(ms) then amount else ClaimedSlices(ms.list, ms.claimed, amount)
  }

  predicate SameRate(a: Audit, rate: nat) { forall t | t in a.claimTerms :: t.1 == rate }

  predicate SameTerms(a: Audit, raised: int, rate: nat) { forall t | t in a.claimTerms :: t == (raised, rate) }

  ghost predicate PaidInv(c: Campaign, ms: Milestones, a: Audit) {
    && 0 <= a.creatorPaid && 0 <= a.feePaid
    && (ms.claimed == {} ==> a.creatorPaid == 0 && a.feePaid == 0 && a.claimTerms == {})
    && (ms.claimed != {} ==> 0 < a.creatorPaid)
    && (forall t | t in a.claimTerms :: t.0 <= c.amountRaised && t.1 <= PLATFORM_FEE_MAX_BPS)
       // Whatever the fee rates and however the campaign grew between claims:
    && a.creatorPaid + a.feePaid <= Released(ms, c.amountRaised) + (if Completed(ms) then |ms.list| - 1 else 0)
       // One fee rate throughout:
    && (forall rate: nat | SameRate(a, rate) && rate <= BPS ::
          && a.creatorPaid <= Released(ms, c.amountRaised - SliceUp(c.amountRaised, rate))
          && a.feePaid <= Released(ms, SliceUp(c.amountRaised, rate)))
       // One fee rate and one amount raised throughout:
    && (forall raised: int, rate: nat | SameTerms(a, raised, rate) ::
          && a.creatorPaid == Released(ms, raised - SliceUp(raised, rate))
          && a.feePaid == Released(ms, SliceUp(raised, rate)))
  }

  // ---- Revenue ------------------------------------------------------------------------------

  /** Each contributor has had exactly their share of the pool at their last claim; the sweeper at least that. */
  predicate ClaimsInv(c: Campaign, l: Ledger, r: Revenue, a: Audit) {
    && a.claimPool.Keys == r.claimed.Keys
    && (forall who | who in r.claimed ::
          && 0 <= a.claimPool[who] <= r.pool
          && var due := Due(Get(l.contributions, who), a.claimPool[who], c.revenueShare, c.effectiveRaised);
             r.claimed[who] == due || (a.sweeper == Some(who) && due <= r.claimed[who]))
  }

  ghost predicate RevenueInv(c: Campaign, l: Ledger, r: Revenue, a: Audit) {
    && 0 <= r.pool
    && (0 < r.pool ==> c.fundsWithdrawn && c.hasRevenueSharing)
    && (r.claimed != map[] ==> c.fundsWithdrawn)
    && r.claimed.Keys <= l.contributions.Keys
    && (forall who | who in r.claimed :: 0 < r.claimed[who])
    && r.distributed == Sum(r.claimed)
    && r.claimants == |r.claimed|
    && 0 <= r.creatorClaimed <= CreatorShare(r.pool, c.revenueShare)
    && (a.sweeper.Some? ==> a.sweeper.value in r.claimed && r.claimed.Keys == l.contributions.Keys)
    && (a.sweeper.None? && r.claimed != map[] ==> r.claimants < l.contributorCount)
    && ClaimsInv(c, l, r, a)
  }

  ghost predicate EntryInv(now: nat, id: nat, e: Entry, a: Audit) {
    && CampaignInv(id, e.campaign)
    && DurationInv(now, e.campaign, e.terms)
    && LedgerInv(e.campaign, e.ledger)
    && RefundInv(now, e.campaign, e.ledger, a)
    && MilestoneInv(e.campaign, e.milestones)
    && PaidInv(e.campaign, e.milestones, a)
    && ReserveInv(e)
    && RevenueInv(e.campaign, e.ledger, e.revenue, a)
    && VotesInv(e.campaign, e.votes, a)
  }

  // ---- What the contract holds for a campaign ------------------------------------------------

  function Unreleased(r: Option<Reserve>): int {
    if r.Some? && !r.value.released then r.value.amount else 0
  }

  /** Contribution money: all of it until withdrawal, less milestone payouts; the unreleased reserve after it. */
  function HeldEscrow(e: Entry, a: Audit): int {
    if e.campaign.fundsWithdrawn && e.milestones.list == [] then Unreleased(e.reserve)
    else e.campaign.effectiveRaised - a.creatorPaid - a.feePaid
  }

  function HeldRevenue(r: Revenue): int { r.pool - r.distributed - r.creatorClaimed }

  /** What a campaign contributes to `total_raised_global`: a cancellation takes off the gross amount raised. */
  function GlobalShare(e: Entry, a: Audit): int {
    if e.campaign.isCancelled then -(a.refundedBeforeCancel + a.creatorPaid + a.feePaid) else HeldEscrow(e, a)
  }

  // ---- The whole contract -------------------------------------------------------------------

  function GlobalShares(s: State): map<nat, int> {
    map id | id in s.entries :: GlobalShare(s.entries[id], AuditOf(s, id))
  }

  function HeldIn(e: Entry, a: Audit, token: Address): int {
    if e.terms.token == token then HeldEscrow(e, a) + HeldRevenue(e.revenue) else 0
  }

  function Holdings(s: State, token: Address): map<nat, int> {
    map id | id in s.entries :: HeldIn(s.entries[id], AuditOf(s, id), token)
  }

  /** Tokens the contract has beyond its campaigns' books: what outsiders sent it unasked. */
  ghost function Surplus(s: State, token: Address): int {
    Balance(s.bank, token, SELF) - Sum(Holdings(s, token))
  }

  function ActiveIds(s: State): set<nat> { set id | id in s.entries && s.entries[id].campaign.isActive }

  function VerifiedIds(s: State): set<nat> { set id | id in s.entries && s.entries[id].campaign.isVerified }

  function CancelledIds(s: State): set<nat> { set id | id in s.entries && s.entries[id].campaign.isCancelled }

  ghost predicate EntriesInv(s: State) {
    forall id | id in s.entries :: EntryInv(s.now, id, s.entries[id], AuditOf(s, id))
  }

  ghost predicate IdsInv(s: State) {
    && s.audits.Keys == s.entries.Keys
    && (forall id :: id in s.entries <==> 1 <= id <= s.counters.campaigns)
  }

  ghost predicate CountersInv(s: State) {
    && s.counters.active == |ActiveIds(s)|
    && s.counters.verified == |VerifiedIds(s)|
    && s.counters.cancelled == |CancelledIds(s)|
  }

  ghost predicate BankInv(s: State) {
    && (forall k | k in s.bank :: 0 <= s.bank[k])
    && (forall token: Address :: 0 <= Surplus(s, token))
  }

  // ---- Indexes ------------------------------------------------------------------------------

  function Owners(s: State): map<nat, Address> { map id | id in s.entries :: s.entries[id].campaign.creator }

  function Categories(s: State): map<nat, Category> { map id | id in s.entries :: s.entries[id].campaign.category }

  function TagLists(s: State): map<nat, seq<string>> { map id | id in s.entries :: s.entries[id].tags }

  function Owned(owners: map<nat, Address>, a: Address): set<nat> { set id | id in owners && owners[id] == a }

  ghost function BucketLengths(b: Buckets.Buckets): map<nat, int> { map i | i in b.chunks :: |b.chunks[i]| }

  /** Every slot knows its campaign's position and every position its slot. */
  ghost predicate PositionsInv(ix: Index) {
    && (forall a: Address, i: nat, k: nat | k < |ByCreator(ix, a).Chunk(i)| ::
          && (a, ByCreator(ix, a).Chunk(i)[k]) in ix.positions
          && ix.positions[(a, ByCreator(ix, a).Chunk(i)[k])] == (i, k))
    && (forall key | key in ix.positions :: Registry.Locatable(ix, key.0, key.1))
  }

  /** The positions are those of the campaigns in their current creator's list, which counts them. */
  ghost predicate OwnersInv(ix: Index, owners: map<nat, Address>) {
    && (forall a: Address, id: nat :: (a, id) in ix.positions <==> id in owners && owners[id] == a)
    && (forall a: Address ::
          && ByCreator(ix, a).count == |Owned(owners, a)|
          && ByCreator(ix, a).count == Sum(BucketLengths(ByCreator(ix, a)))
          && Buckets.Stacked(ByCreator(ix, a)))
  }

  ghost predicate CategoryInv(ix: Index, categories: map<nat, Category>) {
    forall c: Category ::
      && Buckets.Packed(ByCategory(ix, c))
      && Increasing(Buckets.Flat(ByCategory(ix, c)))
      && (forall id :: id in Buckets.Flat(ByCategory(ix, c)) <==> id in categories && categories[id] == c)
  }

  ghost predicate Increasing(ids: seq<nat>) { forall i, j | 0 <= i < j < |ids| :: ids[i] < ids[j] }

  ghost predicate NoRepeats(ids: seq<nat>) { forall i, j | 0 <= i < j < |ids| :: ids[i] != ids[j] }

  ghost predicate TagInv(ix: Index, tags: map<nat, seq<string>>) {
    forall t: string ::
      && Buckets.Packed(ByTag(ix, t))
      && NoRepeats(Buckets.Flat(ByTag(ix, t)))
      && (forall id :: id in Buckets.Flat(ByTag(ix, t)) <==> id in tags && t in tags[id])
  }

  ghost predicate IndexInv(s: State) {
    && PositionsInv(s.index)
    && s.index.creatorOf == Owners(s)
    && OwnersInv(s.index, Owners(s))
    && CategoryInv(s.index, Categories(s))
    && TagInv(s.index, TagLists(s))
  }

  ghost predicate Inv(s: State) {
    && ValidConfig(s.config)
    && EntriesInv(s)
    && IdsInv(s)
    && s.totalRaised == Sum(GlobalShares(s))
    && CountersInv(s)
    && BankInv(s)
    && IndexInv(s)
  }

  // ---- What no call ever takes back ---------------------------------------------------------

  /** One campaign before and after a call made at time `now`. */
  predicate EntryEvolves(now: nat, e: Entry, e': Entry) {
    && e'.terms == e.terms
    && e'.campaign.firstCreator == e.campaign.firstCreator
    && e'.campaign.fundingGoal == e.campaign.fundingGoal
    && e'.campaign.category == e.campaign.category
    && e'.campaign.maxPerUser == e.campaign.maxPerUser
    && e'.campaign.revenueShare == e.campaign.revenueShare
    && e.campaign.amountRaised <= e'.campaign.amountRaised
    && e.campaign.amountRaised - e.campaign.effectiveRaised <= e'.campaign.amountRaised - e'.campaign.effectiveRaised
    && (e.ledger.feeRecipient.Some? ==> e'.ledger.feeRecipient == e.ledger.feeRecipient)
    && (e.campaign.isCancelled ==> e'.campaign.isCancelled)
    && (e.campaign.fundsWithdrawn ==> e'.campaign.fundsWithdrawn)
    && (e'.campaign.isActive ==> e.campaign.isActive && e.votes.voted <= e'.votes.voted)
    && DeadlineEvolves(now, e.campaign, e'.campaign)
  }

  /** At most one extension, of at most 30 days, and never of a deadline that has passed. */
  predicate DeadlineEvolves(now: nat, c: Campaign, c': Campaign) {
    || (c'.deadline == c.deadline && (c.deadlineExtended ==> c'.deadlineExtended))
    || (&& !c.deadlineExtended && c'.deadlineExtended
        && now < c.deadline < c'.deadline <= c.deadline + MAX_EXTENSION_DAYS * SECONDS_PER_DAY)
  }

  ghost predicate Evolves(s: State, s': State) {
    && s.now <= s'.now
    && s'.config.platformToken == s.config.platformToken
    && (forall id | id in s.entries :: id in s'.entries && EntryEvolves(s.now, s.entries[id], s'.entries[id]))
  }

  /** A call that succeeds keeps the invariant, takes nothing back and moves no token off the books. */
  ghost predicate Sound(s: State, r: Result<State>) {
    r.Ok? ==>
      && Inv(r.value)
      && Evolves(s, r.value)
      && (forall token: Address :: Surplus(r.value, token) == Surplus(s, token))
  }
}
