/** The indexes of every reachable state. */
module IndexTheorems {
  import opened Types
  import opened State
  import opened Sums
  import opened Registry
  import opened Invariants
  import opened Compose
  import opened IndexProofs
  import opened Runs
  import GovernanceProofs
  import Governance
  import Buckets
  import Queries

  lemma IndexFrom(s: State, ops: seq<Op>)
    requires Init(s)
    ensures IndexInv(Run(s, ops)) && IdsInv(Run(s, ops))
  {
    hide Run, Init, EntriesInv, CountersInv, BankInv, IndexInv, Governance.ValidConfig, GlobalShares;
    ReachableInv(s, ops);
  }

  /** A position entry and a bucket slot are two views of the same fact. */
  lemma PositionIffSlot(s: State, ops: seq<Op>, a: Address, id: nat, i: nat, k: nat)
    requires Init(s)
    ensures var ix := Run(s, ops).index;
            ((a, id) in ix.positions && ix.positions[(a, id)] == (i, k))
            <==> (k < |ByCreator(ix, a).Chunk(i)| && ByCreator(ix, a).Chunk(i)[k] == id)
  {
    hide Run, Init, OwnersInv, CategoryInv, TagInv;
    IndexFrom(s, ops);
    var ix := Run(s, ops).index;
    if (a, id) in ix.positions {
      assert Locatable(ix, a, id);
    }
  }

  /** Every campaign has exactly one slot, in the list of its current creator, and the reverse index names that creator. */
  lemma OneSlot(s: State, ops: seq<Op>, id: nat)
    requires Init(s) && id in Run(s, ops).entries
    ensures var t := Run(s, ops);
            && id in t.index.creatorOf && t.index.creatorOf[id] == t.entries[id].campaign.creator
            && exists i: nat, k: nat :: k < |ByCreator(t.index, t.entries[id].campaign.creator).Chunk(i)|
                                        && ByCreator(t.index, t.entries[id].campaign.creator).Chunk(i)[k] == id
    ensures var ix := Run(s, ops).index;
            forall a: Address, i: nat, k: nat | k < |ByCreator(ix, a).Chunk(i)| && ByCreator(ix, a).Chunk(i)[k] == id ::
              a == Run(s, ops).entries[id].campaign.creator && (a, id) in ix.positions && ix.positions[(a, id)] == (i, k)
  {
    hide Run, Init, CategoryInv, TagInv;
    IndexFrom(s, ops);
    var t := Run(s, ops);
    var c := t.entries[id].campaign.creator;
    assert Owners(t)[id] == c;
    assert (c, id) in t.index.positions;
    assert Locatable(t.index, c, id);
    var (i, k) := t.index.positions[(c, id)];
    assert ByCreator(t.index, c).Chunk(i)[k] == id;
  }

  /** No campaign sits in two buckets of a creator's list. */
  lemma CreatorListsRepeatFree(s: State, ops: seq<Op>, a: Address)
    requires Init(s)
    ensures Queries.OneBucketEach(ByCreator(Run(s, ops).index, a))
  {
    hide Run, Init, OwnersInv, CategoryInv, TagInv, IdsInv;
    IndexFrom(s, ops);
  }

  /** A creator's count is the number of campaigns they own and the sum of their bucket lengths. */
  lemma CountIsOwnedIsLengths(s: State, ops: seq<Op>, a: Address)
    requires Init(s)
    ensures var t := Run(s, ops);
            && ByCreator(t.index, a).count == |set id | id in t.entries && t.entries[id].campaign.creator == a|
            && ByCreator(t.index, a).count == Sum(BucketLengths(ByCreator(t.index, a)))
  {
    hide Run, Init, CategoryInv, TagInv, PositionsInv, Sum, BucketLengths;
    IndexFrom(s, ops);
    var t := Run(s, ops);
    assert Owned(Owners(t), a) == set id | id in t.entries && t.entries[id].campaign.creator == a;
  }

  /** In a reachable state accepting a transfer never fails on the index, nor on its guard against self-transfer. */
  lemma AcceptNeverLost(s: State, ops: seq<Op>, id: nat)
    requires Init(s)
    ensures AcceptTransfer(Run(s, ops), id) != Err(ValidationFailed)
    ensures AcceptTransfer(Run(s, ops), id) != Err(InvalidNewOwner)
  {
    hide Run, Init, IndexInv, Filed, Unfiled, Locatable, Inv;
    var t := Run(s, ops);
    IndexFrom(s, ops);
    ReachableInv(s, ops);
    if id in t.entries {
      Located(t, id);
      GovernanceProofs.EditFrom(t, id);
    }
  }

  /** The category list is the campaigns of that category, each once, in order of creation, in full buckets but the last. */
  lemma CategoryListed(s: State, ops: seq<Op>, c: Category)
    requires Init(s)
    ensures var t := Run(s, ops);
            && Buckets.Packed(ByCategory(t.index, c))
            && Increasing(Buckets.Flat(ByCategory(t.index, c)))
            && (forall id :: id in Buckets.Flat(ByCategory(t.index, c)) <==> id in t.entries && t.entries[id].campaign.category == c)
  {
    hide Run, Init, PositionsInv, OwnersInv, TagInv, Buckets.Packed, Buckets.Flat, Increasing;
    IndexFrom(s, ops);
  }

  /** The list under a tag is the campaigns that carry it, each once, in full buckets but the last. */
  lemma TagListed(s: State, ops: seq<Op>, tag: string)
    requires Init(s)
    ensures var t := Run(s, ops);
            && Buckets.Packed(ByTag(t.index, tag))
            && NoRepeats(Buckets.Flat(ByTag(t.index, tag)))
            && (forall id :: id in Buckets.Flat(ByTag(t.index, tag)) <==> id in t.entries && tag in t.entries[id].tags)
  {
    hide Run, Init, PositionsInv, OwnersInv, CategoryInv, Buckets.Packed, Buckets.Flat, NoRepeats;
    IndexFrom(s, ops);
  }

  /** A transfer leaves the old creator's list packed exactly when the campaign leaves from the last bucket in use. */
  lemma TransferPacksIff(ix: Index, id: nat, creator: Address)
    requires Locatable(ix, creator, id) && Buckets.Packed(ByCreator(ix, creator))
    ensures Buckets.Packed(ByCreator(Unfiled(ix, id, creator), creator))
            <==> ix.positions[(creator, id)].0 == (ByCreator(ix, creator).count - 1) / BUCKET_SIZE
  {
    hide Buckets.Packed, Buckets.Remove;
    var (i, slot) := ix.positions[(creator, id)];
    Buckets.RemovePackedIff(ByCreator(ix, creator), i, slot);
  }

  /** The counters are the cardinalities they name, and a campaign is active exactly when neither cancelled nor withdrawn. */
  lemma CountersAgree(s: State, ops: seq<Op>)
    requires Init(s)
    ensures var t := Run(s, ops);
            && t.counters.active
               == |set id | id in t.entries && !t.entries[id].campaign.isCancelled && !t.entries[id].campaign.fundsWithdrawn|
            && t.counters.verified == |set id | id in t.entries && t.entries[id].campaign.isVerified|
            && t.counters.cancelled == |set id | id in t.entries && t.entries[id].campaign.isCancelled|
            && t.counters.campaigns == |t.entries|
  {
    hide Run, Init, Inv;
    ReachableInv(s, ops);
    var t := Run(s, ops);
    CountersFrom(t);
    forall id | id in t.entries
      ensures t.entries[id].campaign.isActive <==> !t.entries[id].campaign.isCancelled && !t.entries[id].campaign.fundsWithdrawn
    {
      GovernanceProofs.EditFrom(t, id);
    }
    assert ActiveIds(t) == set id | id in t.entries && !t.entries[id].campaign.isCancelled && !t.entries[id].campaign.fundsWithdrawn;
    assert VerifiedIds(t) == set id | id in t.entries && t.entries[id].campaign.isVerified;
    assert CancelledIds(t) == set id | id in t.entries && t.entries[id].campaign.isCancelled;
    IdCount(t.entries.Keys, t.counters.campaigns);
    assert |t.entries.Keys| == |t.entries|;
  }

  lemma CountersFrom(s: State)
    requires Inv(s)
    ensures CountersInv(s)
    ensures forall id :: id in s.entries.Keys <==> 1 <= id <= s.counters.campaigns
  {
    hide EntriesInv, BankInv, IndexInv, Governance.ValidConfig, GlobalShares, CountersInv;
  }

  lemma {:induction false} IdCount(ids: set<nat>, n: nat)
    requires forall id :: id in ids <==> 1 <= id <= n
    ensures |ids| == n
    decreases n
  {
    if n == 0 {
      assert ids == {};
    } else {
      IdCount(ids - {n}, n - 1);
    }
  }
}
