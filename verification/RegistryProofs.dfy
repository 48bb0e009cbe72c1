/** Creating, transferring and tagging campaigns keep the invariant, indexes included. */
module RegistryProofs {
  import opened Types
  import opened State
  import opened Sums
  import opened Contributions
  import opened Payouts
  import opened Governance
  import opened Registry
  import opened Invariants
  import opened Compose
  import opened ContributionProofs
  import opened GovernanceProofs
  import opened IndexProofs
  import Buckets

  // ---- accept_campaign_transfer -------------------------------------------------------------

  /** The three index invariants over what the campaigns say of themselves. */
  ghost predicate Indexed(ix: Index, owners: map<nat, Address>, categories: map<nat, Category>, tags: map<nat, seq<string>>) {
    PositionsInv(ix) && ix.creatorOf == owners && OwnersInv(ix, owners) && CategoryInv(ix, categories) && TagInv(ix, tags)
  }

  lemma HandedIndex(ix: Index, id: nat, creator: Address, pending: Address,
                    owners: map<nat, Address>, categories: map<nat, Category>, tags: map<nat, seq<string>>)
    requires Indexed(ix, owners, categories, tags) && Locatable(ix, creator, id)
    requires id in owners && owners[id] == creator
    ensures Indexed(Filed(Unfiled(ix, id, creator), id, pending), owners[id := pending], categories, tags)
  {
    hide PositionsInv, OwnersInv, CategoryInv, TagInv, Locatable, Buckets.Append, Buckets.Remove, NextSlot;
    var ix1 := Unfiled(ix, id, creator);
    UnfiledPositions(ix, id, creator);
    UnfiledOwners(ix, id, creator, owners);
    NotFiled(ix1, owners - {id}, id, pending);
    FiledPositions(ix1, id, pending);
    FiledOwners(ix1, id, pending, owners - {id});
    assert (owners - {id})[id := pending] == owners[id := pending];
    CategorySame(ix, Filed(ix1, id, pending), categories);
    TagSame(ix, Filed(ix1, id, pending), tags);
  }

  lemma AcceptIndex(s: State, s': State, id: nat, pending: Address)
    requires IndexInv(s) && Rewrites(s, s', id)
    requires Locatable(s.index, s.entries[id].campaign.creator, id)
    requires s'.index == Filed(Unfiled(s.index, id, s.entries[id].campaign.creator), id, pending)
    requires s'.entries[id].campaign.creator == pending
    requires s'.entries[id].campaign.category == s.entries[id].campaign.category
    requires s'.entries[id].tags == s.entries[id].tags
    ensures IndexInv(s')
  {
    hide PositionsInv, OwnersInv, CategoryInv, TagInv, Locatable, Filed, Unfiled;
    HandedIndex(s.index, id, s.entries[id].campaign.creator, pending, Owners(s), Categories(s), TagLists(s));
    HandedMaps(s, s', id, pending);
  }

  lemma HandedMaps(s: State, s': State, id: nat, pending: Address)
    requires Rewrites(s, s', id)
    requires s'.entries[id].campaign.creator == pending
    requires s'.entries[id].campaign.category == s.entries[id].campaign.category
    requires s'.entries[id].tags == s.entries[id].tags
    ensures Owners(s') == Owners(s)[id := pending]
    ensures Categories(s') == Categories(s) && TagLists(s') == TagLists(s)
  {
  }

  lemma NotFiled(ix: Index, owners: map<nat, Address>, id: nat, a: Address)
    requires OwnersInv(ix, owners) && id !in owners
    ensures (a, id) !in ix.positions
  {
  }

  lemma HandedInv(now: nat, id: nat, e: Entry, a: Audit, pending: Address)
    requires EntryInv(now, id, e, a) && CanSign(pending)
    ensures EntryInv(now, id, Handed(e, pending), a) && EntryEvolves(now, e, Handed(e, pending))
  {
    hide LedgerInv, RefundInv, MilestoneInv, PaidInv, RevenueInv, VotesInv;
    var c := Handed(e, pending).campaign;
    VotesKept(e.campaign, c, e.votes, a, a);
    assert a.(ballots := a.ballots) == a;
    EditedInv(now, id, e, a, c, e.votes, a.ballots);
  }

  lemma AcceptTransferSound(s: State, id: nat)
    requires Inv(s)
    ensures Sound(s, AcceptTransfer(s, id))
  {
    hide Sound, EntryInv, EntryEvolves, IndexInv, GlobalShares, CountersInv, ValidConfig, Filed, Unfiled, Locatable,
         EntriesInv, BankInv;
    var r := AcceptTransfer(s, id);
    if r.Err? {
      NothingSound(s, r.error);
    } else {
      var e, a, s' := s.entries[id], AuditOf(s, id), r.value;
      var pending := e.campaign.pendingCreator.value;
      FromInv(s, id);
      HandedInv(s.now, id, e, a, pending);
      AcceptIndex(s, s', id, pending);
      PutSound(s, s', id);
    }
  }

  // ---- add_campaign_tag ---------------------------------------------------------------------

  lemma TagIndex(s: State, s': State, id: nat, tag: string)
    requires IndexInv(s) && Rewrites(s, s', id) && tag !in s.entries[id].tags
    requires s'.index == s.index.(tags := s.index.tags[tag := Buckets.Append(ByTag(s.index, tag), id)])
    requires s'.entries[id].campaign == s.entries[id].campaign
    requires s'.entries[id].tags == s.entries[id].tags + [tag]
    ensures IndexInv(s')
  {
    hide PositionsInv, OwnersInv, CategoryInv, TagInv, Buckets.Append;
    TaggedInv(s.index, id, tag, TagLists(s));
    assert TagLists(s') == TagLists(s)[id := s.entries[id].tags + [tag]];
    assert Owners(s') == Owners(s) && Categories(s') == Categories(s);
    PositionsSame(s.index, s'.index);
    OwnersSame(s.index, s'.index, Owners(s));
    CategorySame(s.index, s'.index, Categories(s));
  }

  lemma TaggedEntry(now: nat, id: nat, e: Entry, a: Audit, tags: seq<string>)
    requires EntryInv(now, id, e, a)
    ensures EntryInv(now, id, e.(tags := tags), a) && EntryEvolves(now, e, e.(tags := tags))
  {
    hide CampaignInv, DurationInv, LedgerInv, RefundInv, MilestoneInv, PaidInv, RevenueInv, VotesInv;
  }

  lemma AddTagSound(s: State, id: nat, tag: string)
    requires Inv(s)
    ensures Sound(s, AddTag(s, id, tag))
  {
    hide Sound, EntryInv, EntryEvolves, IndexInv, GlobalShares, CountersInv, ValidConfig, Buckets.Append, EntriesInv,
         BankInv;
    var r := AddTag(s, id, tag);
    if r.Err? {
      NothingSound(s, r.error);
    } else {
      var e, a, s' := s.entries[id], AuditOf(s, id), r.value;
      FromInv(s, id);
      TaggedEntry(s.now, id, e, a, e.tags + [tag]);
      TagIndex(s, s', id, tag);
      PutSound(s, s', id);
    }
  }

  // ---- create_campaign ----------------------------------------------------------------------

  lemma NewEntryInv(s: State, id: nat, p: CreateParams, token: Option<Address>)
    requires ValidConfig(s.config) && CanSign(p.creator) && CheckParams(s.config, p).Pass?
    ensures EntryInv(s.now, id, NewEntry(s, id, p, token, s.now + p.durationDays * SECONDS_PER_DAY), NO_AUDIT)
  {
    hide ValidConfig, CheckParams, CampaignInv, DurationInv, LedgerInv, MilestoneInv, PaidInv, RevenueInv, VotesInv;
    var e := NewEntry(s, id, p, token, s.now + p.durationDays * SECONDS_PER_DAY);
    NewCampaignInv(s, id, p, e.terms.token);
    NewLedgerInv(e.campaign, e.ledger);
    NewMilestonesInv(e.campaign);
    NewRevenueInv(e.campaign, e.ledger);
    NewVotesInv(e.campaign);
  }

  lemma NewMilestonesInv(c: Campaign)
    requires c.amountRaised == 0
    ensures MilestoneInv(c, Milestones([], {})) && PaidInv(c, Milestones([], {}), NO_AUDIT)
  {
  }

  lemma NewVotesInv(c: Campaign)
    ensures VotesInv(c, NO_VOTES, NO_AUDIT)
  {
    assert Voters(map[], true) == {} && Voters(map[], false) == {};
  }

  lemma NewCampaignInv(s: State, id: nat, p: CreateParams, token: Address)
    requires ValidConfig(s.config) && CanSign(p.creator) && CheckParams(s.config, p).Pass?
    ensures var c := NewCampaign(id, p, s.now + p.durationDays * SECONDS_PER_DAY);
            && CampaignInv(id, c)
            && DurationInv(s.now, c, Terms(token, s.now, s.config.vestingDelayDays, s.config.vestingBps))
  {
  }

  lemma NewLedgerInv(c: Campaign, l: Ledger)
    requires c.amountRaised == 0 && c.effectiveRaised == 0 && l == Ledger(map[], map[], 0, map[], None, 0, 0)
    ensures LedgerInv(c, l)
  {
  }

  lemma NewRevenueInv(c: Campaign, l: Ledger)
    ensures RevenueInv(c, l, Revenue(0, map[], 0, 0, 0), NO_AUDIT)
  {
    assert 0 * (BPS - c.revenueShare) == 0;
  }

  /** The state with one more campaign. */
  ghost predicate Adds(s: State, s': State, id: nat, e: Entry) {
    && id == s.counters.campaigns + 1
    && s'.entries == s.entries[id := e] && s'.audits == s.audits[id := NO_AUDIT]
    && s'.now == s.now && s'.config == s.config && s'.bank == s.bank && s'.totalRaised == s.totalRaised
    && s'.counters == s.counters.(campaigns := id, active := s.counters.active + 1)
  }

  predicate Unfunded(e: Entry) {
    && e.campaign.effectiveRaised == 0 && e.campaign.isActive
    && !e.campaign.isCancelled && !e.campaign.fundsWithdrawn && !e.campaign.isVerified
    && e.revenue == Revenue(0, map[], 0, 0, 0)
  }

  lemma AddTotals(s: State, s': State, id: nat, e: Entry)
    requires id !in s.entries && Adds(s, s', id, e) && Unfunded(e)
    ensures Sum(GlobalShares(s')) == Sum(GlobalShares(s))
  {
    hide GlobalShare, HeldIn, Unfunded;
    UnfundedHoldsNothing(e, 0);
    assert GlobalShares(s') == GlobalShares(s)[id := 0];
    SumPut<nat>(GlobalShares(s), id, 0);
  }

  lemma UnfundedHoldsNothing(e: Entry, token: Address)
    requires Unfunded(e)
    ensures HeldIn(e, NO_AUDIT, token) == 0 && GlobalShare(e, NO_AUDIT) == 0
  {
    hide HeldEscrow, HeldRevenue;
    UnfundedEscrow(e);
  }

  lemma UnfundedEscrow(e: Entry)
    requires Unfunded(e)
    ensures HeldEscrow(e, NO_AUDIT) == 0 && HeldRevenue(e.revenue) == 0 && !e.campaign.isCancelled
  {
  }

  lemma AddHoldings(s: State, s': State, id: nat, e: Entry, token: Address)
    requires id !in s.entries && Adds(s, s', id, e) && Unfunded(e)
    ensures Surplus(s', token) == Surplus(s, token)
  {
    hide HeldIn, Unfunded;
    UnfundedHoldsNothing(e, token);
    assert Holdings(s', token) == Holdings(s, token)[id := 0];
    SumPut<nat>(Holdings(s, token), id, 0);
  }

  lemma AddBank(s: State, s': State, id: nat, e: Entry)
    requires BankInv(s) && id !in s.entries && Adds(s, s', id, e) && Unfunded(e)
    ensures BankInv(s')
    ensures forall token: Address :: Surplus(s', token) == Surplus(s, token)
  {
    hide Surplus, Unfunded;
    forall token: Address
      ensures Surplus(s', token) == Surplus(s, token)
    {
      AddHoldings(s, s', id, e, token);
    }
  }

  lemma AddCounters(s: State, s': State, id: nat, e: Entry)
    requires id !in s.entries && CountersInv(s) && Adds(s, s', id, e) && Unfunded(e)
    ensures CountersInv(s')
  {
    SetMove(ActiveIds(s), ActiveIds(s'), id);
    SetMove(VerifiedIds(s), VerifiedIds(s'), id);
    SetMove(CancelledIds(s), CancelledIds(s'), id);
  }

  lemma NewIndex(ix: Index, id: nat, creator: Address, category: Category,
                 owners: map<nat, Address>, categories: map<nat, Category>, tags: map<nat, seq<string>>)
    requires Indexed(ix, owners, categories, tags)
    requires id !in owners && id !in tags && forall x | x in categories :: x < id
    ensures Indexed(Filed(Categorized(ix, id, category), id, creator),
                    owners[id := creator], categories[id := category], tags[id := []])
  {
    hide PositionsInv, OwnersInv, CategoryInv, TagInv, Buckets.Append, NextSlot;
    var ix1 := Categorized(ix, id, category);
    PositionsSame(ix, ix1);
    OwnersSame(ix, ix1, owners);
    NotFiled(ix1, owners, id, creator);
    FiledPositions(ix1, id, creator);
    FiledOwners(ix1, id, creator, owners);
    CategorizedInv(ix, id, category, categories);
    CategorySame(ix1, Filed(ix1, id, creator), categories[id := category]);
    UntaggedInv(ix, id, tags);
    TagSame(ix, Filed(ix1, id, creator), tags[id := []]);
  }

  lemma AddIndex(s: State, s': State, id: nat, e: Entry)
    requires id !in s.entries && (forall x | x in s.entries :: x < id) && IndexInv(s) && Adds(s, s', id, e) && e.tags == []
    requires s'.index == Filed(Categorized(s.index, id, e.campaign.category), id, e.campaign.creator)
    ensures IndexInv(s')
  {
    hide PositionsInv, OwnersInv, CategoryInv, TagInv, Filed, Categorized;
    NewIndex(s.index, id, e.campaign.creator, e.campaign.category, Owners(s), Categories(s), TagLists(s));
    AddOwner(s, s', id, e);
    AddCategory(s, s', id, e);
    AddTagList(s, s', id, e);
  }

  lemma AddOwner(s: State, s': State, id: nat, e: Entry)
    requires s'.entries == s.entries[id := e]
    ensures Owners(s') == Owners(s)[id := e.campaign.creator]
  {
  }

  lemma AddCategory(s: State, s': State, id: nat, e: Entry)
    requires s'.entries == s.entries[id := e]
    ensures Categories(s') == Categories(s)[id := e.campaign.category]
  {
  }

  lemma AddTagList(s: State, s': State, id: nat, e: Entry)
    requires s'.entries == s.entries[id := e]
    ensures TagLists(s') == TagLists(s)[id := e.tags]
  {
  }

  lemma AddIds(s: State, s': State, id: nat, e: Entry)
    requires IdsInv(s) && Adds(s, s', id, e)
    ensures IdsInv(s') && id !in s.entries && forall x | x in s.entries :: x < id
  {
  }

  lemma AddEntries(s: State, s': State, id: nat, e: Entry)
    requires EntriesInv(s) && id !in s.entries && Adds(s, s', id, e) && EntryInv(s.now, id, e, NO_AUDIT)
    ensures EntriesInv(s') && Evolves(s, s')
  {
    hide EntryInv;
    forall x | x in s'.entries
      ensures EntryInv(s'.now, x, s'.entries[x], AuditOf(s', x))
    {
      if x != id {
        assert EntryInv(s.now, x, s.entries[x], AuditOf(s, x));
        assert AuditOf(s', x) == AuditOf(s, x);
      }
    }
    forall x | x in s.entries
      ensures x in s'.entries && EntryEvolves(s.now, s.entries[x], s'.entries[x])
    {
    }
  }

  lemma AddSound(s: State, s': State, id: nat, e: Entry)
    requires Inv(s) && Adds(s, s', id, e) && Unfunded(e) && e.tags == []
    requires EntryInv(s.now, id, e, NO_AUDIT)
    requires s'.index == Filed(Categorized(s.index, id, e.campaign.category), id, e.campaign.creator)
    ensures Sound(s, Ok(s'))
  {
    hide EntryInv, EntriesInv, IdsInv, CountersInv, IndexInv, ValidConfig, GlobalShares, Evolves, Filed, Categorized, Unfunded,
         BankInv, Surplus;
    AddIds(s, s', id, e);
    AddBank(s, s', id, e);
    AddTotals(s, s', id, e);
    AddCounters(s, s', id, e);
    AddIndex(s, s', id, e);
    AddEntries(s, s', id, e);
  }

  lemma CreateShape(s: State, p: CreateParams, token: Option<Address>)
    requires CreateCampaign(s, p, token).Ok?
    ensures CanSign(p.creator) && CheckParams(s.config, p).Pass?
    ensures var s' := CreateCampaign(s, p, token).value;
            var id := s.counters.campaigns + 1;
            var e := NewEntry(s, id, p, token, s.now + p.durationDays * SECONDS_PER_DAY);
            && Adds(s, s', id, e) && Unfunded(e) && e.tags == []
            && s'.index == Filed(Categorized(s.index, id, e.campaign.category), id, e.campaign.creator)
  {
    hide CheckParams, CheckToken, Filed, Categorized;
  }

  lemma CreateCampaignSound(s: State, p: CreateParams, token: Option<Address>)
    requires Inv(s)
    ensures Sound(s, CreateCampaign(s, p, token))
  {
    hide Sound, Inv, CreateCampaign, NewEntry, Adds, Unfunded, Filed, Categorized, EntryInv, CheckParams, ValidConfig;
    var r := CreateCampaign(s, p, token);
    if r.Err? {
      NothingSound(s, r.error);
    } else {
      CreateShape(s, p, token);
      ConfigFrom(s);
      var id := s.counters.campaigns + 1;
      NewEntryInv(s, id, p, token);
      AddSound(s, r.value, id, NewEntry(s, id, p, token, s.now + p.durationDays * SECONDS_PER_DAY));
    }
  }
}
