/** src/campaigns/create.rs, src/campaigns/transfer.rs, src/tags.rs: campaigns and the indexes over them. */
module Registry {
  import opened Types
  import opened State
  import opened Payouts
  import opened Governance
  import Buckets

  // ---- create_campaign ----------------------------------------------------------------------

  function CheckParams(config: Config, p: CreateParams): Outcome {
    if p.fundingGoal <= 0 then Fail(FundingGoalMustBePositive)
    else if p.fundingGoal < config.minGoal then Fail(FundingGoalTooLow)
    else if config.maxGoal < p.fundingGoal then Fail(FundingGoalTooHigh)
    else if p.durationDays < 1 || DurationCap(config, p.category) < p.durationDays then Fail(InvalidDuration)
    else if !(0 < |p.description| <= DESCRIPTION_MAX_LEN) then Fail(ValidationFailed)
    else if p.category != EducationalStartup && p.hasRevenueSharing then Fail(RevenueShareOnlyForStartup)
    else if p.hasRevenueSharing && !(0 < p.revenueShare <= REVENUE_SHARE_MAX_BPS) then Fail(InvalidRevenueShare)
    else if p.maxPerUser < 0 then Fail(ValidationFailed)
    else Pass
  }

  /** The platform token needs no allowlist entry; `None` asks for it by default. */
  function CheckToken(config: Config, token: Option<Address>): Outcome {
    Need(token.GetOr(config.platformToken) == config.platformToken || token.value in config.allowedTokens, ValidationFailed)
  }

  function NewCampaign(id: nat, p: CreateParams, deadline: nat): Campaign {
    Campaign(id, p.creator, p.creator, None, p.description, p.fundingGoal, deadline, 0,
             true, false, false, false, p.category, p.hasRevenueSharing,
             if p.hasRevenueSharing then p.revenueShare else 0, p.maxPerUser, None, false, 0)
  }

  function NewEntry(s: State, id: nat, p: CreateParams, token: Option<Address>, deadline: nat): Entry {
    Entry(NewCampaign(id, p, deadline),
          Terms(token.GetOr(s.config.platformToken), s.now, s.config.vestingDelayDays, s.config.vestingBps),
          Ledger(map[], map[], 0, map[], None, 0, 0),
          Milestones([], {}), None,
          Revenue(0, map[], 0, 0, 0),
          NO_VOTES, [])
  }

  /** Where an append to this list lands. */
  function NextSlot(b: Buckets.Buckets): (nat, nat) {
    (b.count / BUCKET_SIZE, |b.Chunk(b.count / BUCKET_SIZE)|)
  }

  function Filed(ix: Index, id: nat, creator: Address): Index {
    var b := ByCreator(ix, creator);
    ix.(creators := ix.creators[creator := Buckets.Append(b, id)],
        positions := ix.positions[(creator, id) := NextSlot(b)],
        creatorOf := ix.creatorOf[id := creator])
  }

  function Categorized(ix: Index, id: nat, category: Category): Index {
    ix.(categories := ix.categories[category := Buckets.Append(ByCategory(ix, category), id)])
  }

  /** The checks of `create_campaign`, and the deadline it sets. */
  function CheckCreate(s: State, p: CreateParams, token: Option<Address>): Result<nat> {
    if !CanSign(p.creator) then Err(AuthFailed)
    else
      :- Need(!s.paused, ContractPaused);
      :- Need(!s.config.creationDisabled, CreationDisabled);
      :- CheckParams(s.config, p);
      :- CheckToken(s.config, token);
      :- Need(s.counters.campaigns + 1 <= U32_MAX, Overflow);
      CalculateDeadline(s.now, p.durationDays)
  }

  function CreateCampaign(s: State, p: CreateParams, token: Option<Address>): Result<State> {
    var deadline :- CheckCreate(s, p, token);
    var id := s.counters.campaigns + 1;
    Ok(Put(s, id, NewEntry(s, id, p, token, deadline), NO_AUDIT)
       .(counters := s.counters.(campaigns := id, active := s.counters.active + 1),
         index := Filed(Categorized(s.index, id, p.category), id, p.creator)))
  }

  // ---- Campaign transfer --------------------------------------------------------------------

  function InitiateTransfer(s: State, id: nat, newCreator: Address): Result<State> {
    var e :- GetCreatorEntry(s, id);
    :- Need(!s.paused, ContractPaused);
    :- Need(IsOpen(e.campaign), CampaignNotActive);
    :- Need(!e.campaign.fundsWithdrawn, CampaignNotActive);
    :- Need(newCreator != e.campaign.creator, InvalidNewOwner);
    :- Need(e.campaign.pendingCreator.None?, TransferAlreadyPending);
    Ok(Put(s, id, e.(campaign := e.campaign.(pendingCreator := Some(newCreator))), AuditOf(s, id)))
  }

  /** The index lookups of `accept_campaign_transfer` all succeed. */
  predicate Locatable(ix: Index, creator: Address, id: nat) {
    && (creator, id) in ix.positions
    && var (i, slot) := ix.positions[(creator, id)];
       slot < |ByCreator(ix, creator).Chunk(i)| && ByCreator(ix, creator).Chunk(i)[slot] == id
  }

  /** Swap-removal: the bucket's last campaign takes the hole and its position follows. */
  function Unfiled(ix: Index, id: nat, creator: Address): Index
    requires Locatable(ix, creator, id)
  {
    var (i, slot) := ix.positions[(creator, id)];
    var b := ByCreator(ix, creator);
    var chunk := b.Chunk(i);
    var moved := chunk[|chunk| - 1];
    var positions := if slot != |chunk| - 1 then ix.positions[(creator, moved) := (i, slot)] else ix.positions;
    ix.(creators := ix.creators[creator := Buckets.Remove(b, i, slot)], positions := positions - {(creator, id)})
  }

  function Handed(e: Entry, pending: Address): Entry {
    e.(campaign := e.campaign.(creator := pending, pendingCreator := None))
  }

  /** The checks of `accept_campaign_transfer`, and the new creator. */
  function CheckAccept(s: State, id: nat): (r: Result<Address>)
    ensures r.Ok? ==> id in s.entries && Locatable(s.index, s.entries[id].campaign.creator, id)
  {
    var e :- GetEntry(s, id);
    var c := e.campaign;
    :- Need(IsOpen(c), CampaignNotActive);
    :- Need(!s.paused, ContractPaused);
    :- Need(c.pendingCreator.Some?, NoTransferPending);
    var pending := c.pendingCreator.value;
    :- Need(CanSign(pending), AuthFailed);
    :- Need(pending != c.creator, InvalidNewOwner);
    :- Need(Locatable(s.index, c.creator, id), ValidationFailed);
    Ok(pending)
  }

  function AcceptTransfer(s: State, id: nat): Result<State> {
    var pending :- CheckAccept(s, id);
    var e := s.entries[id];
    Ok(Put(s, id, Handed(e, pending), AuditOf(s, id))
       .(index := Filed(Unfiled(s.index, id, e.campaign.creator), id, pending)))
  }

  function CancelTransfer(s: State, id: nat): Result<State> {
    var e :- GetCreatorEntry(s, id);
    :- Need(!s.paused, ContractPaused);
    :- Need(e.campaign.pendingCreator.Some?, NoTransferPending);
    Ok(Put(s, id, e.(campaign := e.campaign.(pendingCreator := None)), AuditOf(s, id)))
  }

  // ---- Tags ---------------------------------------------------------------------------------

  function AddTag(s: State, id: nat, tag: string): Result<State> {
    var e :- GetCreatorEntry(s, id);
    :- Need(!s.paused, ContractPaused);
    :- Need(IsOpen(e.campaign), CampaignNotActive);
    :- Need(0 < |tag| <= TAG_MAX_LEN, ValidationFailed);
    :- Need(|e.tags| < MAX_TAGS, ValidationFailed);
    :- Need(tag !in e.tags, ValidationFailed);
    Ok(Put(s, id, e.(tags := e.tags + [tag]), AuditOf(s, id))
       .(index := s.index.(tags := s.index.tags[tag := Buckets.Append(ByTag(s.index, tag), id)])))
  }
}
