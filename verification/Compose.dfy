/** A call that rewrites one campaign keeps the contract-wide invariant if its totals move with that campaign. */
module Compose {
  import opened Types
  import opened State
  import opened Sums
  import opened Invariants
  import Registry
  import Governance
  import RevenueSharing

  /** `s'` differs from `s` in what is stored for campaign `id`, in totals, tokens and indexes only. */
  ghost predicate Rewrites(s: State, s': State, id: nat) {
    && id in s.entries && id in s'.entries && id in s'.audits
    && s'.entries == s.entries[id := s'.entries[id]]
    && s'.audits == s.audits[id := s'.audits[id]]
    && s'.now == s.now && s'.config == s.config
    && s'.counters.campaigns == s.counters.campaigns
  }

  function One(b: bool): int { if b then 1 else 0 }

  /** The counters move with the flags of the one campaign. */
  predicate CountersMove(k: Counters, k': Counters, c: Campaign, c': Campaign) {
    && k'.active - k.active == One(c'.isActive) - One(c.isActive)
    && k'.verified - k.verified == One(c'.isVerified) - One(c.isVerified)
    && k'.cancelled - k.cancelled == One(c'.isCancelled) - One(c.isCancelled)
  }

  /** The contract's balances move with what it holds for the one campaign. */
  ghost predicate BankMoves(b: Bank, b': Bank, e: Entry, e': Entry, a: Audit, a': Audit) {
    && (forall k | k in b' :: 0 <= b'[k])
    && (forall t: Address :: Balance(b', t, SELF) - Balance(b, t, SELF) == HeldIn(e', a', t) - HeldIn(e, a, t))
  }

  lemma PutEntries(s: State, s': State, id: nat)
    requires EntriesInv(s) && Rewrites(s, s', id)
    requires EntryInv(s.now, id, s'.entries[id], s'.audits[id])
    ensures EntriesInv(s')
  {
    hide EntryInv;
    forall x | x in s'.entries
      ensures EntryInv(s'.now, x, s'.entries[x], AuditOf(s', x))
    {
      if x != id {
        assert EntryInv(s.now, x, s.entries[x], AuditOf(s, x));
        assert AuditOf(s', x) == AuditOf(s, x);
      }
    }
  }

  lemma PutTotal(s: State, s': State, id: nat)
    requires Rewrites(s, s', id)
    ensures Sum(GlobalShares(s')) - Sum(GlobalShares(s))
            == GlobalShare(s'.entries[id], s'.audits[id]) - GlobalShare(s.entries[id], AuditOf(s, id))
  {
    hide GlobalShare;
    var g := GlobalShare(s'.entries[id], s'.audits[id]);
    assert GlobalShares(s') == GlobalShares(s)[id := g];
    SumPut(GlobalShares(s), id, g);
  }

  lemma PutHoldings(s: State, s': State, id: nat, token: Address)
    requires Rewrites(s, s', id)
    ensures Sum(Holdings(s', token)) - Sum(Holdings(s, token))
            == HeldIn(s'.entries[id], s'.audits[id], token) - HeldIn(s.entries[id], AuditOf(s, id), token)
  {
    hide HeldIn;
    var h := HeldIn(s'.entries[id], s'.audits[id], token);
    assert Holdings(s', token) == Holdings(s, token)[id := h];
    SumPut(Holdings(s, token), id, h);
  }

  lemma PutSurplus(s: State, s': State, id: nat)
    requires BankInv(s) && Rewrites(s, s', id)
    requires BankMoves(s.bank, s'.bank, s.entries[id], s'.entries[id], AuditOf(s, id), s'.audits[id])
    ensures BankInv(s')
    ensures forall token: Address :: Surplus(s', token) == Surplus(s, token)
  {
    hide HeldIn;
    forall token: Address
      ensures Surplus(s', token) == Surplus(s, token)
    {
      PutHoldings(s, s', id, token);
    }
  }

  lemma SetMove(ids: set<nat>, ids': set<nat>, id: nat)
    requires ids' - {id} == ids - {id}
    ensures |ids'| - |ids| == One(id in ids') - One(id in ids)
  {
    if id in ids { assert ids == ids - {id} + {id}; } else { assert ids == ids - {id}; }
    if id in ids' { assert ids' == ids' - {id} + {id}; } else { assert ids' == ids' - {id}; }
  }

  lemma PutCounters(s: State, s': State, id: nat)
    requires CountersInv(s) && Rewrites(s, s', id)
    requires CountersMove(s.counters, s'.counters, s.entries[id].campaign, s'.entries[id].campaign)
    ensures CountersInv(s')
  {
    SetMove(ActiveIds(s), ActiveIds(s'), id);
    SetMove(VerifiedIds(s), VerifiedIds(s'), id);
    SetMove(CancelledIds(s), CancelledIds(s'), id);
  }

  /** Calls that touch neither creator, category nor tags leave the indexes right. */
  lemma IndexKept(s: State, s': State, id: nat)
    requires IndexInv(s) && Rewrites(s, s', id) && s'.index == s.index
    requires s'.entries[id].campaign.creator == s.entries[id].campaign.creator
    requires s'.entries[id].campaign.category == s.entries[id].campaign.category
    requires s'.entries[id].tags == s.entries[id].tags
    ensures IndexInv(s')
  {
    hide PositionsInv, OwnersInv, CategoryInv, TagInv;
    assert Owners(s') == Owners(s);
    assert Categories(s') == Categories(s);
    assert TagLists(s') == TagLists(s);
  }

  lemma PutSound(s: State, s': State, id: nat)
    requires Inv(s) && Rewrites(s, s', id)
    requires EntryInv(s.now, id, s'.entries[id], s'.audits[id])
    requires EntryEvolves(s.now, s.entries[id], s'.entries[id])
    requires s'.totalRaised - s.totalRaised
             == GlobalShare(s'.entries[id], s'.audits[id]) - GlobalShare(s.entries[id], AuditOf(s, id))
    requires CountersMove(s.counters, s'.counters, s.entries[id].campaign, s'.entries[id].campaign)
    requires BankMoves(s.bank, s'.bank, s.entries[id], s'.entries[id], AuditOf(s, id), s'.audits[id])
    requires IndexInv(s')
    ensures Sound(s, Ok(s'))
  {
    hide EntryInv, IndexInv, GlobalShare, HeldIn, BankMoves, Surplus, BankInv, CountersInv, CountersMove,
         Governance.ValidConfig;
    PutEntries(s, s', id);
    PutTotal(s, s', id);
    PutCounters(s, s', id);
    PutSurplus(s, s', id);
    assert IdsInv(s');
    assert Evolves(s, s') by {
      forall x | x in s.entries
        ensures x in s'.entries && EntryEvolves(s.now, s.entries[x], s'.entries[x])
      {
      }
    }
  }

  /** What a transfer does to the contract's own balances. */
  lemma TransferMoves(b: Bank, token: Address, from: Address, to: Address, amount: int)
    requires forall k | k in b :: 0 <= b[k]
    requires Transfer(b, token, from, to, amount).Ok?
    ensures var b' := Transfer(b, token, from, to, amount).value;
            && (forall k | k in b' :: 0 <= b'[k])
            && (forall t: Address :: Balance(b', t, SELF) - Balance(b, t, SELF)
                  == if t != token || from == to then 0 else if to == SELF then amount else if from == SELF then -amount else 0)
  {
  }

  // ---- The form every rewriting call takes --------------------------------------------------

  function Updated(s: State, id: nat, e: Entry, a: Audit, counters: Counters, total: int, bank: Bank): State {
    Put(s, id, e, a).(counters := counters, totalRaised := total, bank := bank)
  }

  lemma UpdateSound(s: State, id: nat, e: Entry, a: Audit, k: Counters, total: int, bank: Bank)
    requires Inv(s) && id in s.entries
    requires EntryInv(s.now, id, e, a) && EntryEvolves(s.now, s.entries[id], e)
    requires total - s.totalRaised == GlobalShare(e, a) - GlobalShare(s.entries[id], AuditOf(s, id))
    requires k.campaigns == s.counters.campaigns
    requires CountersMove(s.counters, k, s.entries[id].campaign, e.campaign)
    requires BankMoves(s.bank, bank, s.entries[id], e, AuditOf(s, id), a)
    requires e.campaign.creator == s.entries[id].campaign.creator
    requires e.campaign.category == s.entries[id].campaign.category
    requires e.tags == s.entries[id].tags
    ensures Sound(s, Ok(Updated(s, id, e, a, k, total, bank)))
  {
    hide EntryInv, EntryEvolves, IndexInv, GlobalShare, HeldIn, BankMoves, CountersMove, Governance.ValidConfig,
         CountersInv, IdsInv, BankInv, Sound;
    var s' := Updated(s, id, e, a, k, total, bank);
    IndexKept(s, s', id);
    PutSound(s, s', id);
  }

  /** The parts of the invariant a call on campaign `id` starts from. */
  lemma FromInv(s: State, id: nat)
    requires Inv(s) && id in s.entries
    ensures EntryInv(s.now, id, s.entries[id], AuditOf(s, id))
    ensures forall k | k in s.bank :: 0 <= s.bank[k]
    ensures Governance.ValidConfig(s.config)
  {
    hide EntryInv, IndexInv, CountersInv, IdsInv, Surplus;
  }

  /** A campaign that is open is counted, so the guarded decrement never meets zero. */
  lemma CountedActive(s: State, id: nat)
    requires Inv(s) && id in s.entries
    ensures s.entries[id].campaign.isActive ==> 0 < s.counters.active
    ensures s.entries[id].campaign.isVerified ==> 0 < s.counters.verified
    ensures s.entries[id].campaign.isCancelled ==> 0 < s.counters.cancelled
  {
    hide EntriesInv, IndexInv, IdsInv, BankInv, Governance.ValidConfig, GlobalShares;
    var e := s.entries[id];
    if e.campaign.isActive { assert id in ActiveIds(s); }
    if e.campaign.isVerified { assert id in VerifiedIds(s); }
    if e.campaign.isCancelled { assert id in CancelledIds(s); }
  }

  lemma NothingSound(s: State, error: Error)
    ensures Sound(s, Err(error))
  {
  }

  // ---- One part of a campaign's invariant while another part changes ------------------------

  lemma MilestonesKept(c: Campaign, c': Campaign, ms: Milestones)
    requires MilestoneInv(c, ms)
    requires c'.fundingGoal == c.fundingGoal && c.amountRaised <= c'.amountRaised && c'.fundsWithdrawn == c.fundsWithdrawn
    ensures MilestoneInv(c', ms)
  {
  }

  lemma PaidKept(c: Campaign, c': Campaign, ms: Milestones, a: Audit, a': Audit)
    requires PaidInv(c, ms, a) && c'.amountRaised == c.amountRaised
    requires a'.creatorPaid == a.creatorPaid && a'.feePaid == a.feePaid && a'.claimTerms == a.claimTerms
    ensures PaidInv(c', ms, a')
  {
    hide Released, Completed;
    assert forall rate: nat :: SameRate(a', rate) <==> SameRate(a, rate);
    assert forall raised: int, rate: nat :: SameTerms(a', raised, rate) <==> SameTerms(a, raised, rate);
  }

  lemma RevenueKept(c: Campaign, c': Campaign, l: Ledger, l': Ledger, r: Revenue, a: Audit, a': Audit)
    requires RevenueInv(c, l, r, a)
    requires c'.fundsWithdrawn == c.fundsWithdrawn && c'.hasRevenueSharing == c.hasRevenueSharing
    requires c'.revenueShare == c.revenueShare && c'.effectiveRaised == c.effectiveRaised
    requires l'.contributions == l.contributions && l'.contributorCount == l.contributorCount
    requires a'.claimPool == a.claimPool && a'.sweeper == a.sweeper
    ensures RevenueInv(c', l', r, a')
  {
    hide RevenueSharing.Due, RevenueSharing.CreatorShare;
  }

  lemma VotesKept(c: Campaign, c': Campaign, v: Votes, a: Audit, a': Audit)
    requires VotesInv(c, v, a) && (IsOpen(c') ==> IsOpen(c)) && a'.ballots == a.ballots
    ensures VotesInv(c', v, a')
  {
  }
}
