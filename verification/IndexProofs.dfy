/** The creator index under creation and transfer, and the append-only category and tag indexes. */
module IndexProofs {
  import opened Types
  import opened State
  import opened Sums
  import opened Registry
  import opened Invariants
  import Buckets

  // ---- Creator index: filing and unfiling a campaign -----------------------------------------

  lemma FiledPositions(ix: Index, id: nat, creator: Address)
    requires PositionsInv(ix)
    requires (creator, id) !in ix.positions
    ensures PositionsInv(Filed(ix, id, creator))
  {
    var ix' := Filed(ix, id, creator);
    var b := ByCreator(ix, creator);
    var (j, slot) := NextSlot(b);
    forall a: Address, i: nat, k: nat | k < |ByCreator(ix', a).Chunk(i)|
      ensures (a, ByCreator(ix', a).Chunk(i)[k]) in ix'.positions
      ensures ix'.positions[(a, ByCreator(ix', a).Chunk(i)[k])] == (i, k)
    {
      if !(a == creator && i == j && k == slot) {
        assert ByCreator(ix', a).Chunk(i)[k] == ByCreator(ix, a).Chunk(i)[k];
      }
    }
    forall key | key in ix'.positions
      ensures Locatable(ix', key.0, key.1)
    {
      FiledLocatable(ix, id, creator, key);
    }
  }

  lemma FiledLocatable(ix: Index, id: nat, creator: Address, key: (Address, nat))
    requires PositionsInv(ix) && key in Filed(ix, id, creator).positions
    ensures Locatable(Filed(ix, id, creator), key.0, key.1)
  {
    if key != (creator, id) {
      assert Locatable(ix, key.0, key.1);
    }
  }

  lemma FiledOwners(ix: Index, id: nat, creator: Address, owners: map<nat, Address>)
    requires OwnersInv(ix, owners) && id !in owners
    ensures OwnersInv(Filed(ix, id, creator), owners[id := creator])
  {
    var ix', owners' := Filed(ix, id, creator), owners[id := creator];
    forall a: Address, x: nat
      ensures (a, x) in ix'.positions <==> x in owners' && owners'[x] == a
    {
      assert (a, x) in ix.positions <==> x in owners && owners[x] == a;
    }
    forall a: Address
      ensures ByCreator(ix', a).count == |Owned(owners', a)|
      ensures ByCreator(ix', a).count == Sum(BucketLengths(ByCreator(ix', a)))
      ensures Buckets.Stacked(ByCreator(ix', a))
    {
      hide Sum, Buckets.Append, NextSlot, BucketLengths, Owned, Buckets.Stacked;
      assert ByCreator(ix, a).count == |Owned(owners, a)|;
      OwnedPut(owners, id, creator, a);
      if a == creator {
        AppendLengths(ByCreator(ix, creator), id);
        AppendStacked(ByCreator(ix, creator), id);
      }
    }
  }

  lemma OwnedPut(owners: map<nat, Address>, id: nat, creator: Address, a: Address)
    requires id !in owners
    ensures |Owned(owners[id := creator], a)| == |Owned(owners, a)| + if a == creator then 1 else 0
  {
    if a == creator {
      assert Owned(owners[id := creator], a) == Owned(owners, a) + {id};
    } else {
      assert Owned(owners[id := creator], a) == Owned(owners, a);
    }
  }

  lemma OwnedDrop(owners: map<nat, Address>, id: nat, a: Address)
    requires id in owners
    ensures |Owned(owners - {id}, a)| == |Owned(owners, a)| - if a == owners[id] then 1 else 0
    ensures a == owners[id] ==> 0 < |Owned(owners, a)|
  {
    if a == owners[id] {
      assert id in Owned(owners, a);
      assert Owned(owners - {id}, a) == Owned(owners, a) - {id};
    } else {
      assert Owned(owners - {id}, a) == Owned(owners, a);
    }
  }

  lemma AppendLengths(b: Buckets.Buckets, id: nat)
    ensures Buckets.Append(b, id).count == b.count + 1
    ensures Sum(BucketLengths(Buckets.Append(b, id))) == Sum(BucketLengths(b)) + 1
  {
    var i: nat := b.count / BUCKET_SIZE;
    var n: int := |b.Chunk(i)| + 1;
    SumPut<nat>(BucketLengths(b), i, n);
    assert BucketLengths(Buckets.Append(b, id)) == BucketLengths(b)[i := n];
  }

  lemma RemoveLengths(b: Buckets.Buckets, i: nat, slot: nat)
    requires slot < |b.Chunk(i)|
    ensures Buckets.Remove(b, i, slot).count == if b.count == 0 then 0 else b.count - 1
    ensures Sum(BucketLengths(Buckets.Remove(b, i, slot))) == Sum(BucketLengths(b)) - 1
  {
    SumPut<nat>(BucketLengths(b), i, |b.Chunk(i)| - 1);
    assert BucketLengths(Buckets.Remove(b, i, slot)) == BucketLengths(b)[i := |b.Chunk(i)| - 1];
  }

  lemma {:induction false} FullPrefixWithin(lengths: map<nat, int>, n: nat)
    requires forall k | k in lengths :: 0 <= lengths[k]
    requires forall j: nat | j < n :: j in lengths && lengths[j] == BUCKET_SIZE
    ensures n * BUCKET_SIZE <= Sum(lengths)
    decreases n
  {
    if n == 0 {
      SumNonNegative<nat>(lengths);
    } else {
      SumRemove<nat>(lengths, n - 1);
      FullPrefixWithin(lengths - {n - 1}, n - 1);
    }
  }

  /** Full buckets and the one after them hold no more than the whole list. */
  lemma FullBelowWithin(b: Buckets.Buckets, i: nat)
    requires Buckets.FullBelow(b, i)
    ensures i * BUCKET_SIZE + |b.Chunk(i)| <= Sum(BucketLengths(b))
  {
    var lengths := BucketLengths(b);
    forall j: nat | j < i
      ensures j in lengths && lengths[j] == BUCKET_SIZE
    {
      assert |b.Chunk(j)| == BUCKET_SIZE;
    }
    if i in lengths {
      SumRemove<nat>(lengths, i);
      FullPrefixWithin(lengths - {i}, i);
    } else {
      FullPrefixWithin(lengths, i);
    }
  }

  lemma AppendStacked(b: Buckets.Buckets, id: nat)
    requires Buckets.Stacked(b) && b.count == Sum(BucketLengths(b))
    ensures Buckets.Stacked(Buckets.Append(b, id))
  {
    var b', c := Buckets.Append(b, id), b.count / BUCKET_SIZE;
    AppendLengths(b, id);
    forall i: nat | Buckets.FullBelow(b', i)
      ensures |b'.Chunk(i)| <= BUCKET_SIZE
    {
      if i < c {
        assert forall j: nat | j < i :: |b.Chunk(j)| == |b'.Chunk(j)|;
        assert Buckets.FullBelow(b, i);
      } else {
        FullBelowWithin(b', i);
      }
    }
  }

  lemma RemoveStacked(b: Buckets.Buckets, j: nat, slot: nat)
    requires Buckets.Stacked(b) && slot < |b.Chunk(j)|
    ensures Buckets.Stacked(Buckets.Remove(b, j, slot))
  {
    var b' := Buckets.Remove(b, j, slot);
    forall i: nat
      ensures Buckets.FullBelow(b', i) ==> |b'.Chunk(i)| <= BUCKET_SIZE
    {
      FullBelowSame(b, b', if i < j then i else j);
      FullBelowLess(b', j, i);
      SwapOutSlots(b.Chunk(j), slot);
    }
  }

  lemma FullBelowLess(b: Buckets.Buckets, j: nat, i: nat)
    ensures j < i && Buckets.FullBelow(b, i) ==> Buckets.FullBelow(b, j) && |b.Chunk(j)| == BUCKET_SIZE
  {
  }

  lemma FullBelowSame(b: Buckets.Buckets, b': Buckets.Buckets, i: nat)
    requires forall k: nat | k < i :: |b.Chunk(k)| == |b'.Chunk(k)|
    ensures Buckets.FullBelow(b, i) <==> Buckets.FullBelow(b', i)
  {
  }

  /** Where the slots of the rewritten bucket come from. */
  lemma SwapOutSlots(chunk: seq<nat>, slot: nat)
    requires slot < |chunk|
    ensures |Buckets.SwapOut(chunk, slot)| == |chunk| - 1
    ensures forall k | 0 <= k < |chunk| - 1 ::
              Buckets.SwapOut(chunk, slot)[k] == if k == slot then chunk[|chunk| - 1] else chunk[k]
  {
  }

  lemma UnfiledSlots(ix: Index, id: nat, creator: Address)
    requires PositionsInv(ix) && Locatable(ix, creator, id)
    ensures var ix' := Unfiled(ix, id, creator);
            forall a: Address, i: nat, k: nat | k < |ByCreator(ix', a).Chunk(i)| ::
              && (a, ByCreator(ix', a).Chunk(i)[k]) in ix'.positions
              && ix'.positions[(a, ByCreator(ix', a).Chunk(i)[k])] == (i, k)
  {
    hide Buckets.SwapOut;
    var ix' := Unfiled(ix, id, creator);
    var (j, slot) := ix.positions[(creator, id)];
    var chunk := ByCreator(ix, creator).Chunk(j);
    var last := |chunk| - 1;
    SwapOutSlots(chunk, slot);
    assert ix.positions[(creator, chunk[last])] == (j, last);
    forall a: Address, i: nat, k: nat | k < |ByCreator(ix', a).Chunk(i)|
      ensures (a, ByCreator(ix', a).Chunk(i)[k]) in ix'.positions
      ensures ix'.positions[(a, ByCreator(ix', a).Chunk(i)[k])] == (i, k)
    {
      if !(a == creator && i == j && k == slot) {
        var x := ByCreator(ix, a).Chunk(i)[k];
        assert ByCreator(ix', a).Chunk(i)[k] == x;
        assert ix.positions[(a, x)] == (i, k);
      }
    }
  }

  lemma UnfiledLocates(ix: Index, id: nat, creator: Address, key: (Address, nat))
    requires PositionsInv(ix) && Locatable(ix, creator, id)
    requires key in Unfiled(ix, id, creator).positions
    ensures Locatable(Unfiled(ix, id, creator), key.0, key.1)
  {
    hide Buckets.SwapOut;
    var (j, slot) := ix.positions[(creator, id)];
    var chunk := ByCreator(ix, creator).Chunk(j);
    var last := |chunk| - 1;
    SwapOutSlots(chunk, slot);
    assert ix.positions[(creator, chunk[last])] == (j, last);
    assert Locatable(ix, key.0, key.1);
    var (i, k) := ix.positions[key];
    if key.0 == creator && i == j {
      assert chunk[k] == key.1;
      assert k == slot ==> key == (creator, id);
      assert k != slot;
    }
  }

  lemma UnfiledPositions(ix: Index, id: nat, creator: Address)
    requires PositionsInv(ix) && Locatable(ix, creator, id)
    ensures PositionsInv(Unfiled(ix, id, creator))
  {
    var ix' := Unfiled(ix, id, creator);
    UnfiledSlots(ix, id, creator);
    forall key | key in ix'.positions
      ensures Locatable(ix', key.0, key.1)
    {
      UnfiledLocates(ix, id, creator, key);
    }
  }

  lemma UnfiledOwners(ix: Index, id: nat, creator: Address, owners: map<nat, Address>)
    requires OwnersInv(ix, owners) && Locatable(ix, creator, id) && PositionsInv(ix)
    requires id in owners && owners[id] == creator
    ensures OwnersInv(Unfiled(ix, id, creator), owners - {id})
  {
    hide Buckets.Stacked, Sum, BucketLengths, Owned;
    var ix', owners' := Unfiled(ix, id, creator), owners - {id};
    UnfiledKeys(ix, id, creator);
    forall a: Address, x: nat
      ensures (a, x) in ix'.positions <==> x in owners' && owners'[x] == a
    {
      assert (a, x) in ix.positions <==> x in owners && owners[x] == a;
    }
    forall a: Address
      ensures ByCreator(ix', a).count == |Owned(owners', a)|
      ensures ByCreator(ix', a).count == Sum(BucketLengths(ByCreator(ix', a)))
      ensures Buckets.Stacked(ByCreator(ix', a))
    {
      UnfiledCount(ix, id, creator, owners, a);
    }
  }

  lemma UnfiledCount(ix: Index, id: nat, creator: Address, owners: map<nat, Address>, a: Address)
    requires OwnersInv(ix, owners) && Locatable(ix, creator, id) && id in owners && owners[id] == creator
    ensures var b := ByCreator(Unfiled(ix, id, creator), a);
            && b.count == |Owned(owners - {id}, a)| && b.count == Sum(BucketLengths(b)) && Buckets.Stacked(b)
  {
    hide Sum, Buckets.Remove, BucketLengths, Owned, Buckets.Stacked;
    assert ByCreator(ix, a).count == |Owned(owners, a)|;
    OwnedDrop(owners, id, a);
    if a == creator {
      var (j, slot) := ix.positions[(creator, id)];
      RemoveLengths(ByCreator(ix, creator), j, slot);
      RemoveStacked(ByCreator(ix, creator), j, slot);
    }
  }

  lemma UnfiledKeys(ix: Index, id: nat, creator: Address)
    requires PositionsInv(ix) && Locatable(ix, creator, id)
    ensures Unfiled(ix, id, creator).positions.Keys == ix.positions.Keys - {(creator, id)}
  {
    var (j, slot) := ix.positions[(creator, id)];
    var chunk := ByCreator(ix, creator).Chunk(j);
    assert (creator, chunk[|chunk| - 1]) in ix.positions;
  }

  /** In a consistent index every campaign can be found in its creator's list, so a transfer never fails on a lookup. */
  lemma Located(s: State, id: nat)
    requires IndexInv(s) && id in s.entries
    ensures Locatable(s.index, s.entries[id].campaign.creator, id)
  {
    hide CategoryInv, TagInv;
    assert (s.entries[id].campaign.creator, id) in s.index.positions;
  }

  // ---- Append-only indexes ------------------------------------------------------------------

  lemma CategorizedInv(ix: Index, id: nat, category: Category, categories: map<nat, Category>)
    requires CategoryInv(ix, categories)
    requires forall x | x in categories :: x < id
    ensures CategoryInv(Categorized(ix, id, category), categories[id := category])
  {
    hide Buckets.Packed, Buckets.Flat, Increasing, Categorized;
    var ix', categories' := Categorized(ix, id, category), categories[id := category];
    forall c: Category
      ensures Buckets.Packed(ByCategory(ix', c))
      ensures Increasing(Buckets.Flat(ByCategory(ix', c)))
      ensures forall x :: x in Buckets.Flat(ByCategory(ix', c)) <==> x in categories' && categories'[x] == c
    {
      CategorizedOne(ix, id, category, categories, c);
    }
  }

  lemma CategorizedOne(ix: Index, id: nat, category: Category, categories: map<nat, Category>, c: Category)
    requires CategoryInv(ix, categories)
    requires forall x | x in categories :: x < id
    ensures var ix', categories' := Categorized(ix, id, category), categories[id := category];
            && Buckets.Packed(ByCategory(ix', c))
            && Increasing(Buckets.Flat(ByCategory(ix', c)))
            && (forall x :: x in Buckets.Flat(ByCategory(ix', c)) <==> x in categories' && categories'[x] == c)
  {
    hide Buckets.Packed, Buckets.Flat, Buckets.Append;
    var b := ByCategory(ix, c);
    if c == category {
      Buckets.AppendPacked(b, id);
      var f := Buckets.Flat(b);
      assert forall i | 0 <= i < |f| :: f[i] in f;
    } else {
      assert ByCategory(Categorized(ix, id, category), c) == b;
    }
  }

  lemma TaggedInv(ix: Index, id: nat, tag: string, tags: map<nat, seq<string>>)
    requires TagInv(ix, tags) && id in tags && tag !in tags[id]
    ensures TagInv(ix.(tags := ix.tags[tag := Buckets.Append(ByTag(ix, tag), id)]), tags[id := tags[id] + [tag]])
  {
    var ix', tags' := ix.(tags := ix.tags[tag := Buckets.Append(ByTag(ix, tag), id)]), tags[id := tags[id] + [tag]];
    forall t: string
      ensures Buckets.Packed(ByTag(ix', t))
      ensures NoRepeats(Buckets.Flat(ByTag(ix', t)))
      ensures forall x :: x in Buckets.Flat(ByTag(ix', t)) <==> x in tags' && t in tags'[x]
    {
      hide Buckets.Packed, Buckets.Flat, Buckets.Append;
      var b := ByTag(ix, t);
      if t == tag {
        Buckets.AppendPacked(b, id);
        var f := Buckets.Flat(b);
        assert forall i | 0 <= i < |f| :: f[i] in f;
      } else {
        assert ByTag(ix', t) == b;
      }
    }
  }

  /** A new campaign carries no tags. */
  lemma UntaggedInv(ix: Index, id: nat, tags: map<nat, seq<string>>)
    requires TagInv(ix, tags) && id !in tags
    ensures TagInv(ix, tags[id := []])
  {
    forall t: string
      ensures Buckets.Packed(ByTag(ix, t))
      ensures NoRepeats(Buckets.Flat(ByTag(ix, t)))
      ensures forall x :: x in Buckets.Flat(ByTag(ix, t)) <==> x in tags[id := []] && t in tags[id := []][x]
    {
      hide Buckets.Packed, Buckets.Flat;
    }
  }

  // ---- The other indexes do not see a change of one -------------------------------------------

  lemma PositionsSame(ix: Index, ix': Index)
    requires PositionsInv(ix) && ix'.creators == ix.creators && ix'.positions == ix.positions
    ensures PositionsInv(ix')
  {
    assert forall a :: ByCreator(ix', a) == ByCreator(ix, a);
    forall key | key in ix'.positions
      ensures Locatable(ix', key.0, key.1)
    {
      assert Locatable(ix, key.0, key.1);
    }
  }

  lemma OwnersSame(ix: Index, ix': Index, owners: map<nat, Address>)
    requires OwnersInv(ix, owners) && ix'.creators == ix.creators && ix'.positions == ix.positions
    ensures OwnersInv(ix', owners)
  {
    hide Sum, BucketLengths, Owned;
    assert forall a :: ByCreator(ix', a) == ByCreator(ix, a);
  }

  lemma CategorySame(ix: Index, ix': Index, categories: map<nat, Category>)
    requires CategoryInv(ix, categories) && ix'.categories == ix.categories
    ensures CategoryInv(ix', categories)
  {
    hide Buckets.Packed, Buckets.Flat, Increasing;
    assert forall c :: ByCategory(ix', c) == ByCategory(ix, c);
  }

  lemma TagSame(ix: Index, ix': Index, tags: map<nat, seq<string>>)
    requires TagInv(ix, tags) && ix'.tags == ix.tags
    ensures TagInv(ix', tags)
  {
    hide Buckets.Packed, Buckets.Flat, NoRepeats;
    assert forall t :: ByTag(ix', t) == ByTag(ix, t);
  }
}
