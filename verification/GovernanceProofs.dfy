/** Votes, verification, edits and settings keep the invariant; they move no money. */
module GovernanceProofs {
  import opened Types
  import opened State
  import opened Contributions
  import opened Payouts
  import opened Governance
  import opened Invariants
  import opened Compose
  import opened ContributionProofs
  import opened PayoutProofs
  import Registry

  // ---- Calls that leave the money alone -----------------------------------------------------

  predicate SameMoney(c: Campaign, c': Campaign) {
    && c'.amountRaised == c.amountRaised && c'.effectiveRaised == c.effectiveRaised
    && c'.fundingGoal == c.fundingGoal && c'.maxPerUser == c.maxPerUser
    && c'.isActive == c.isActive && c'.fundsWithdrawn == c.fundsWithdrawn && c'.isCancelled == c.isCancelled
    && c'.hasRevenueSharing == c.hasRevenueSharing && c'.revenueShare == c.revenueShare
    && c'.category == c.category && c'.firstCreator == c.firstCreator
  }

  function Edited(e: Entry, c: Campaign, v: Votes): Entry { e.(campaign := c, votes := v) }

  lemma EditedInv(now: nat, id: nat, e: Entry, a: Audit, c: Campaign, v: Votes, ballots: map<Address, bool>)
    requires EntryInv(now, id, e, a) && SameMoney(e.campaign, c)
    requires CampaignInv(id, c) && DurationInv(now, c, e.terms) && VotesInv(c, v, a.(ballots := ballots))
    requires c.deadline == e.campaign.deadline || now < e.campaign.deadline
    ensures EntryInv(now, id, Edited(e, c, v), a.(ballots := ballots))
  {
    hide CampaignInv, DurationInv, LedgerInv, RefundInv, MilestoneInv, PaidInv, RevenueInv, VotesInv;
    var a' := a.(ballots := ballots);
    MilestonesKept(e.campaign, c, e.milestones);
    PaidKept(e.campaign, c, e.milestones, a, a');
    RevenueKept(e.campaign, c, e.ledger, e.ledger, e.revenue, a, a');
    EditedLedger(now, e.campaign, c, e.ledger, a, a');
  }

  lemma EditedLedger(now: nat, c: Campaign, c': Campaign, l: Ledger, a: Audit, a': Audit)
    requires LedgerInv(c, l) && RefundInv(now, c, l, a) && SameMoney(c, c')
    requires a'.refundedBeforeCancel == a.refundedBeforeCancel
    requires c'.deadline == c.deadline || now < c.deadline
    ensures LedgerInv(c', l) && RefundInv(now, c', l, a')
  {
  }

  lemma EditSound(s: State, id: nat, c: Campaign, v: Votes, ballots: map<Address, bool>, k: Counters)
    requires Inv(s) && id in s.entries
    requires SameMoney(s.entries[id].campaign, c) && c.creator == s.entries[id].campaign.creator
    requires CampaignInv(id, c) && DurationInv(s.now, c, s.entries[id].terms)
    requires VotesInv(c, v, AuditOf(s, id).(ballots := ballots))
    requires DeadlineEvolves(s.now, s.entries[id].campaign, c)
    requires c.isActive ==> s.entries[id].votes.voted <= v.voted
    requires k.campaigns == s.counters.campaigns
    requires CountersMove(s.counters, k, s.entries[id].campaign, c)
    ensures Sound(s, Ok(Put(s, id, Edited(s.entries[id], c, v), AuditOf(s, id).(ballots := ballots)).(counters := k)))
  {
    hide Inv, Sound, CampaignInv, DurationInv, LedgerInv, RefundInv, MilestoneInv, PaidInv, RevenueInv, VotesInv, CountersMove,
         EntryInv, ValidConfig;
    var e, a := s.entries[id], AuditOf(s, id);
    FromInv(s, id);
    EditedInv(s.now, id, e, a, c, v, ballots);
    UpdateSound(s, id, Edited(e, c, v), a.(ballots := ballots), k, s.totalRaised, s.bank);
  }

  lemma EditFrom(s: State, id: nat)
    requires Inv(s) && id in s.entries
    ensures CampaignInv(id, s.entries[id].campaign)
    ensures DurationInv(s.now, s.entries[id].campaign, s.entries[id].terms)
    ensures VotesInv(s.entries[id].campaign, s.entries[id].votes, AuditOf(s, id))
  {
    hide Inv, CampaignInv, DurationInv, LedgerInv, RefundInv, MilestoneInv, PaidInv, RevenueInv, VotesInv;
    FromInv(s, id);
  }

  // ---- Votes --------------------------------------------------------------------------------

  lemma CountedInv(c: Campaign, v: Votes, a: Audit, voter: Address, approve: bool)
    requires VotesInv(c, v, a) && IsOpen(c) && voter !in v.voted
    ensures VotesInv(c, Counted(v, voter, approve), a.(ballots := a.ballots[voter := approve]))
  {
    hide Voters;
    VotersWith(a.ballots, voter, approve);
  }

  lemma VotersWith(ballots: map<Address, bool>, voter: Address, approve: bool)
    requires voter !in ballots
    ensures |Voters(ballots[voter := approve], approve)| == |Voters(ballots, approve)| + 1
    ensures Voters(ballots[voter := approve], !approve) == Voters(ballots, !approve)
  {
    var b := ballots[voter := approve];
    assert Voters(b, approve) == Voters(ballots, approve) + {voter};
  }

  lemma CastVoteSound(s: State, id: nat, voter: Address, approve: bool)
    requires Inv(s)
    ensures Sound(s, CastVote(s, id, voter, approve))
  {
    hide Inv, Sound, VotesInv, CampaignInv, DurationInv;
    var r := CastVote(s, id, voter, approve);
    if r.Err? {
      NothingSound(s, r.error);
    } else {
      EditFrom(s, id);
      var e, a := s.entries[id], AuditOf(s, id);
      CountedInv(e.campaign, e.votes, a, voter, approve);
      EditSound(s, id, e.campaign, Counted(e.votes, voter, approve), a.ballots[voter := approve], s.counters);
    }
  }

  lemma MarkedVerifiedSound(s: State, id: nat)
    requires Inv(s) && id in s.entries && IsOpen(s.entries[id].campaign) && !s.entries[id].campaign.isVerified
    ensures Sound(s, Ok(MarkedVerified(s, id, s.entries[id])))
  {
    hide Inv, Sound, VotesInv;
    EditFrom(s, id);
    var e, a := s.entries[id], AuditOf(s, id);
    var c := e.campaign.(isVerified := true);
    VotesKept(e.campaign, c, e.votes, a, a);
    assert a.(ballots := a.ballots) == a;
    EditSound(s, id, c, e.votes, a.ballots, s.counters.(verified := s.counters.verified + 1));
  }

  lemma AdminVerifySound(s: State, id: nat)
    requires Inv(s)
    ensures Sound(s, AdminVerify(s, id))
  {
    hide Inv, Sound, MarkedVerified;
    var r := AdminVerify(s, id);
    if r.Err? { NothingSound(s, r.error); } else { MarkedVerifiedSound(s, id); }
  }

  lemma VerifyCampaignSound(s: State, id: nat)
    requires Inv(s)
    ensures Sound(s, VerifyCampaign(s, id))
  {
    hide Inv, Sound, AdminVerify;
    var r := VerifyCampaign(s, id);
    if r.Err? { NothingSound(s, r.error); } else { AdminVerifySound(s, id); }
  }

  lemma VerifyWithVotesSound(s: State, id: nat)
    requires Inv(s)
    ensures Sound(s, VerifyWithVotes(s, id))
  {
    hide Inv, Sound, MarkedVerified, ApprovalBps, ThresholdFor;
    var r := VerifyWithVotes(s, id);
    if r.Err? { NothingSound(s, r.error); } else { MarkedVerifiedSound(s, id); }
  }

  lemma EvolvesTransitive(s0: State, s1: State, s2: State)
    requires Evolves(s0, s1) && Evolves(s1, s2)
    ensures Evolves(s0, s2)
  {
    forall id | id in s0.entries
      ensures id in s2.entries && EntryEvolves(s0.now, s0.entries[id], s2.entries[id])
    {
      EntryEvolvesTransitive(s0.now, s1.now, s0.entries[id], s1.entries[id], s2.entries[id]);
    }
  }

  lemma EntryEvolvesTransitive(n0: nat, n1: nat, e0: Entry, e1: Entry, e2: Entry)
    requires n0 <= n1 && EntryEvolves(n0, e0, e1) && EntryEvolves(n1, e1, e2)
    ensures EntryEvolves(n0, e0, e2)
  {
  }

  /** Two sound calls in a row are sound. */
  lemma SoundTransitive(s0: State, s1: State, s2: State)
    requires Sound(s0, Ok(s1)) && Sound(s1, Ok(s2))
    ensures Sound(s0, Ok(s2))
  {
    hide Inv, Surplus, Evolves;
    EvolvesTransitive(s0, s1, s2);
  }

  lemma SoundRefl(s: State)
    requires Inv(s)
    ensures Sound(s, Ok(s))
  {
    hide Inv, Surplus;
  }

  lemma {:induction false} VerifyAllSound(s: State, ids: seq<nat>)
    requires Inv(s)
    ensures Sound(s, Ok(VerifyAll(s, ids).0))
    decreases |ids|
  {
    hide Sound, Inv, AdminVerify;
    if ids == [] {
      SoundRefl(s);
    } else {
      VerifyAllSound(s, ids[..|ids| - 1]);
      var s1 := VerifyAll(s, ids[..|ids| - 1]).0;
      SoundInv(s, s1);
      var r := AdminVerify(s1, ids[|ids| - 1]);
      AdminVerifySound(s1, ids[|ids| - 1]);
      if r.Ok? {
        SoundTransitive(s, s1, r.value);
      }
    }
  }

  lemma SoundInv(s: State, s': State)
    requires Sound(s, Ok(s'))
    ensures Inv(s') && Evolves(s, s')
  {
    hide Inv, Evolves;
  }

  lemma VerifyCampaignsSound(s: State, ids: seq<nat>)
    requires Inv(s)
    ensures Sound(s, VerifyCampaigns(s, ids))
  {
    hide Inv, Sound, VerifyAll;
    var r := VerifyCampaigns(s, ids);
    if r.Err? { NothingSound(s, r.error); } else { VerifyAllSound(s, Batch(ids)); }
  }

  lemma PurgeSound(s: State, id: nat, voters: seq<Address>, finalize: bool)
    requires Inv(s)
    ensures Sound(s, PurgeVotingState(s, id, voters, finalize))
  {
    hide Inv, Sound, DurationInv, VotesInv;
    var r := PurgeVotingState(s, id, voters, finalize);
    if r.Err? {
      NothingSound(s, r.error);
    } else {
      EditFrom(s, id);
      var e, a := s.entries[id], AuditOf(s, id);
      var v := e.votes.(voted := e.votes.voted - Members(voters));
      PurgedVotes(e.campaign, e.votes, v, a);
      EmptyTally(e.campaign, v, a.(ballots := map[]));
      assert a.(ballots := a.ballots) == a;
      if finalize {
        EditSound(s, id, e.campaign, WithoutTally(v), map[], s.counters);
      } else {
        EditSound(s, id, e.campaign, v, a.ballots, s.counters);
      }
    }
  }

  lemma PurgedVotes(c: Campaign, v: Votes, v': Votes, a: Audit)
    requires VotesInv(c, v, a) && !IsOpen(c) && v' == v.(voted := v'.voted)
    ensures VotesInv(c, v', a)
  {
  }

  // ---- Edits --------------------------------------------------------------------------------

  lemma UpdateDescriptionSound(s: State, id: nat, description: string)
    requires Inv(s)
    ensures Sound(s, UpdateDescription(s, id, description))
  {
    hide Inv, Sound, VotesInv;
    var r := UpdateDescription(s, id, description);
    if r.Err? {
      NothingSound(s, r.error);
    } else {
      EditFrom(s, id);
      CountedActive(s, id);
      var e, a := s.entries[id], AuditOf(s, id);
      var c := e.campaign.(description := description, isVerified := false);
      VotesKept(e.campaign, c, e.votes, a, a);
      EmptyTally(c, e.votes, a.(ballots := map[]));
      assert a.(ballots := a.ballots) == a;
      if e.campaign.isVerified {
        EditSound(s, id, c, WithoutTally(e.votes), map[], s.counters.(verified := Decrement(s.counters.verified)));
      } else {
        EditSound(s, id, c, e.votes, a.ballots, s.counters);
      }
    }
  }

  lemma ExtendedDuration(now: nat, c: Campaign, t: Terms, days: nat)
    requires DurationInv(now, c, t)
    requires (c.deadline + days * SECONDS_PER_DAY - t.startTime) / SECONDS_PER_DAY <= MAX_DURATION_DAYS
    ensures DurationInv(now, c.(deadline := c.deadline + days * SECONDS_PER_DAY, deadlineExtended := true), t)
  {
  }

  lemma ExtendDeadlineSound(s: State, id: nat, days: nat)
    requires Inv(s)
    ensures Sound(s, ExtendDeadline(s, id, days))
  {
    hide Inv, Sound, VotesInv, DurationInv, DurationCap;
    var r := ExtendDeadline(s, id, days);
    if r.Err? {
      NothingSound(s, r.error);
    } else {
      EditFrom(s, id);
      var e, a := s.entries[id], AuditOf(s, id);
      var c := e.campaign.(deadline := e.campaign.deadline + days * SECONDS_PER_DAY, deadlineExtended := true);
      ExtendedDuration(s.now, e.campaign, e.terms, days);
      VotesKept(e.campaign, c, e.votes, a, a);
      assert a.(ballots := a.ballots) == a;
      EditSound(s, id, c, e.votes, a.ballots, s.counters);
    }
  }

  lemma SetFeeOverrideSound(s: State, id: nat, admin: Address, fee: nat)
    requires Inv(s)
    ensures Sound(s, SetFeeOverride(s, id, admin, fee))
  {
    hide Inv, Sound, VotesInv, DurationInv;
    var r := SetFeeOverride(s, id, admin, fee);
    if r.Err? {
      NothingSound(s, r.error);
    } else {
      EditFrom(s, id);
      var e, a := s.entries[id], AuditOf(s, id);
      var c := e.campaign.(feeOverride := Some(fee));
      VotesKept(e.campaign, c, e.votes, a, a);
      SameDuration(s.now, e.campaign, c, e.terms);
      assert a.(ballots := a.ballots) == a;
      EditSound(s, id, c, e.votes, a.ballots, s.counters);
    }
  }

  lemma SameDuration(now: nat, c: Campaign, c': Campaign, t: Terms)
    requires DurationInv(now, c, t) && c'.deadline == c.deadline
    ensures DurationInv(now, c', t)
  {
  }

  /** `initiate_campaign_transfer` and `cancel_campaign_transfer`. */
  lemma TransferOfferSound(s: State, id: nat, newCreator: Address)
    requires Inv(s)
    ensures Sound(s, Registry.InitiateTransfer(s, id, newCreator))
    ensures Sound(s, Registry.CancelTransfer(s, id))
  {
    hide Inv, Sound, VotesInv, DurationInv;
    var r, q := Registry.InitiateTransfer(s, id, newCreator), Registry.CancelTransfer(s, id);
    if r.Err? {
      NothingSound(s, r.error);
    } else {
      OfferSound(s, id, Some(newCreator));
    }
    if q.Err? {
      NothingSound(s, q.error);
    } else {
      OfferSound(s, id, None);
    }
  }

  lemma OfferSound(s: State, id: nat, pending: Option<Address>)
    requires Inv(s) && id in s.entries && pending != Some(s.entries[id].campaign.creator)
    ensures var e := s.entries[id];
            Sound(s, Ok(Put(s, id, e.(campaign := e.campaign.(pendingCreator := pending)), AuditOf(s, id))))
  {
    hide Inv, Sound, VotesInv, DurationInv;
    EditFrom(s, id);
    var e, a := s.entries[id], AuditOf(s, id);
    var c := e.campaign.(pendingCreator := pending);
    VotesKept(e.campaign, c, e.votes, a, a);
    SameDuration(s.now, e.campaign, c, e.terms);
    assert a.(ballots := a.ballots) == a;
    EditSound(s, id, c, e.votes, a.ballots, s.counters);
  }

  // ---- Settings and the outside world -------------------------------------------------------

  /** Storage and tokens untouched: the clock, the pause flag and valid settings may change. */
  lemma SettingsSound(s: State, s': State)
    requires Inv(s) && ValidConfig(s'.config) && s'.config.platformToken == s.config.platformToken
    requires s' == s.(now := s'.now, ledgerSeq := s'.ledgerSeq, paused := s'.paused, config := s'.config)
    requires s.now <= s'.now
    ensures Sound(s, Ok(s'))
  {
    hide ValidConfig, CountersInv, IndexInv, EntryInv, BankInv;
    assert GlobalShares(s') == GlobalShares(s);
    assert EntriesInv(s') by {
      forall id | id in s'.entries
        ensures EntryInv(s'.now, id, s'.entries[id], AuditOf(s', id))
      {
        assert EntryInv(s.now, id, s.entries[id], AuditOf(s, id));
        TimePasses(s.now, s'.now, id, s.entries[id], AuditOf(s, id));
      }
    }
    SettingsKeep(s, s');
  }

  lemma TimePasses(now: nat, later: nat, id: nat, e: Entry, a: Audit)
    requires EntryInv(now, id, e, a) && now <= later
    ensures EntryInv(later, id, e, a)
  {
    hide LedgerInv, MilestoneInv, PaidInv, RevenueInv, VotesInv;
  }

  /** Invariants that read only what is stored for the campaigns. */
  lemma CampaignsSame(s: State, s': State)
    requires s'.entries == s.entries && s'.audits == s.audits && s'.counters == s.counters && s'.index == s.index
    ensures CountersInv(s') <==> CountersInv(s)
    ensures IndexInv(s') <==> IndexInv(s)
    ensures IdsInv(s') <==> IdsInv(s)
    ensures GlobalShares(s') == GlobalShares(s)
    ensures forall token: Address :: Holdings(s', token) == Holdings(s, token)
  {
    hide PositionsInv, OwnersInv, CategoryInv, TagInv, HeldIn, GlobalShare;
    assert ActiveIds(s') == ActiveIds(s) && VerifiedIds(s') == VerifiedIds(s) && CancelledIds(s') == CancelledIds(s);
    assert Owners(s') == Owners(s) && Categories(s') == Categories(s) && TagLists(s') == TagLists(s);
    forall token: Address
      ensures Holdings(s', token) == Holdings(s, token)
    {
    }
  }

  lemma SettingsKeep(s: State, s': State)
    requires s'.entries == s.entries && s'.audits == s.audits && s'.counters == s.counters
    requires s'.bank == s.bank && s'.index == s.index
    ensures CountersInv(s') <==> CountersInv(s)
    ensures IndexInv(s') <==> IndexInv(s)
    ensures BankInv(s') <==> BankInv(s)
    ensures forall token: Address :: Surplus(s', token) == Surplus(s, token)
  {
    hide CountersInv, IndexInv, IdsInv, GlobalShares, Holdings;
    CampaignsSame(s, s');
    assert forall token: Address :: Surplus(s', token) == Surplus(s, token);
  }

  lemma EntriesSame(s: State, s': State)
    requires EntriesInv(s) && s'.entries == s.entries && s'.audits == s.audits && s'.now == s.now
    ensures EntriesInv(s')
  {
    hide EntryInv;
    forall id | id in s'.entries
      ensures EntryInv(s'.now, id, s'.entries[id], AuditOf(s', id))
    {
      assert EntryInv(s.now, id, s.entries[id], AuditOf(s, id));
    }
  }

  lemma ConfigFrom(s: State)
    requires Inv(s)
    ensures ValidConfig(s.config)
  {
    hide EntriesInv, IdsInv, CountersInv, BankInv, IndexInv;
  }

  lemma UpdatePlatformFeeSound(s: State, fee: nat)
    requires Inv(s)
    ensures Sound(s, UpdatePlatformFee(s, fee))
  {
    hide Sound, Inv;
    ConfigFrom(s);
    var r := UpdatePlatformFee(s, fee);
    if r.Ok? { SettingsSound(s, r.value); } else { NothingSound(s, r.error); }
  }

  lemma SetVestingParamsSound(s: State, admin: Address, days: nat, bps: nat)
    requires Inv(s)
    ensures Sound(s, SetVestingParams(s, admin, days, bps))
  {
    hide Sound, Inv;
    ConfigFrom(s);
    var r := SetVestingParams(s, admin, days, bps);
    if r.Ok? { SettingsSound(s, r.value); } else { NothingSound(s, r.error); }
  }

  lemma SetCategoryDurationCapSound(s: State, admin: Address, category: Category, days: nat)
    requires Inv(s)
    ensures Sound(s, SetCategoryDurationCap(s, admin, category, days))
  {
    hide Sound, Inv;
    ConfigFrom(s);
    var r := SetCategoryDurationCap(s, admin, category, days);
    if r.Ok? { SettingsSound(s, r.value); } else { NothingSound(s, r.error); }
  }
}
