/** When the pages of a creator's list, which transfers can leave with short buckets, are the whole list. */
module CreatorPages {
  import opened Types
  import opened State
  import opened Sums
  import opened Invariants
  import opened Runs
  import opened Buckets
  import IndexProofs
  import IndexTheorems

  /** The count says how many ids the buckets hold. */
  ghost predicate Tallied(b: Buckets) { b.count == Sum(BucketLengths(b)) }

  // ---- The first short bucket ---------------------------------------------------------------

  ghost predicate Gap(b: Buckets, i: nat) { FullBelow(b, i) && |b.Chunk(i)| < PackedLength(b.count, i) }

  ghost predicate Off(b: Buckets, i: nat) { |b.Chunk(i)| != PackedLength(b.count, i) }

  lemma {:induction false} FirstOff(b: Buckets, i: nat) returns (k: nat)
    requires Off(b, i)
    ensures Off(b, k) && forall j: nat | j < k :: !Off(b, j)
    decreases i
  {
    if j: nat :| j < i && Off(b, j) {
      k := FirstOff(b, j);
    } else {
      k := i;
    }
  }

  lemma {:induction false} LengthsWithin(lengths: map<nat, int>, count: nat, n: nat)
    requires forall k | k in lengths :: 0 <= lengths[k]
    requires forall j: nat | j < n :: (if j in lengths then lengths[j] else 0) == PackedLength(count, j)
    ensures (if n * BUCKET_SIZE < count then n * BUCKET_SIZE else count) <= Sum(lengths)
    decreases n
  {
    if n == 0 {
      SumNonNegative<nat>(lengths);
    } else if n - 1 in lengths {
      SumRemove<nat>(lengths, n - 1);
      LengthsWithin(lengths - {n - 1}, count, n - 1);
    } else {
      LengthsWithin(lengths, count, n - 1);
    }
  }

  /** The first bucket of the wrong length is short and comes after full ones. */
  lemma FirstOffIsGap(b: Buckets, i: nat)
    requires Stacked(b) && Tallied(b) && Off(b, i) && forall j: nat | j < i :: !Off(b, j)
    ensures Gap(b, i)
  {
    var lengths := BucketLengths(b);
    forall j: nat | j < i
      ensures (if j in lengths then lengths[j] else 0) == PackedLength(b.count, j)
    {
      assert !Off(b, j);
    }
    if i in lengths {
      SumRemove<nat>(lengths, i);
      LengthsWithin(lengths - {i}, b.count, i);
    }
    assert i * BUCKET_SIZE < b.count;
    forall j: nat | j < i
      ensures |b.Chunk(j)| == BUCKET_SIZE
    {
      assert !Off(b, j);
      assert (j + 1) * BUCKET_SIZE <= i * BUCKET_SIZE;
    }
    assert FullBelow(b, i);
  }

  // ---- What a gap does to the pages ---------------------------------------------------------

  lemma {:induction false} CollectedAtMost(b: Buckets, position: nat, end: nat)
    requires Clear(b, position, end)
    ensures |Collected(b, position, end)| <= if end <= position then 0 else end - position
    decreases end - position
  {
    if position < end {
      var i := position / BUCKET_SIZE;
      assert i * BUCKET_SIZE + position % BUCKET_SIZE == position;
      if b.Chunk(i) == [] {
        CollectedAtMost(b, i * BUCKET_SIZE + BUCKET_SIZE, end);
      } else if i * BUCKET_SIZE + |b.Chunk(i)| < end {
        CollectedAtMost(b, i * BUCKET_SIZE + |b.Chunk(i)|, end);
      }
    }
  }

  /** A page that reaches past a gap does not end, or returns fewer ids than it spans. */
  lemma {:induction false} PageMeetsGap(b: Buckets, i: nat, position: nat, end: nat)
    requires Gap(b, i) && position <= i * BUCKET_SIZE + |b.Chunk(i)| < end
    ensures Clear(b, position, end) ==> |Collected(b, position, end)| < end - position
    decreases end - position
  {
    var k := position / BUCKET_SIZE;
    assert k * BUCKET_SIZE + position % BUCKET_SIZE == position;
    if k == i {
      if b.Chunk(i) == [] && Clear(b, position, end) {
        CollectedAtMost(b, i * BUCKET_SIZE + BUCKET_SIZE, end);
      }
    } else {
      assert k < i;
      assert |b.Chunk(k)| == BUCKET_SIZE;
      assert (k + 1) * BUCKET_SIZE <= i * BUCKET_SIZE;
      PageMeetsGap(b, i, (k + 1) * BUCKET_SIZE, end);
    }
  }

  lemma {:induction false} PagesAtMost(b: Buckets, start: nat, limit: nat)
    requires 0 < limit && PagesEnd(b, start, limit) && start <= b.count
    ensures |PageByPage(b, start, limit)| <= b.count - start
    decreases b.count - start
  {
    hide Clear, Collected;
    if start < b.count {
      var end := WindowEnd(start, limit, b.count);
      CollectedAtMost(b, start, end);
      PagesAtMost(b, end, limit);
    }
  }

  lemma {:induction false} PagesMeetGap(b: Buckets, i: nat, start: nat, limit: nat)
    requires 0 < limit && Gap(b, i) && start <= i * BUCKET_SIZE + |b.Chunk(i)| < b.count
    ensures PagesEnd(b, start, limit) ==> |PageByPage(b, start, limit)| < b.count - start
    decreases b.count - start
  {
    hide Clear, Collected, Gap;
    if PagesEnd(b, start, limit) {
      var end := WindowEnd(start, limit, b.count);
      if i * BUCKET_SIZE + |b.Chunk(i)| < end {
        PageMeetsGap(b, i, start, end);
        PagesAtMost(b, end, limit);
      } else {
        CollectedAtMost(b, start, end);
        PagesMeetGap(b, i, end, limit);
      }
    }
  }

  lemma GapBeforeEnd(b: Buckets, i: nat)
    requires Gap(b, i)
    ensures i * BUCKET_SIZE + |b.Chunk(i)| < b.count
  {
  }

  /**
   Whatever the page size, the pages of a list all end and return as many ids as the list holds if and only if every
   bucket before the last is full.
   */
  lemma PagesCompleteIff(b: Buckets, limit: nat)
    requires 0 < limit && Stacked(b) && Tallied(b)
    ensures Packed(b) <==> PagesEnd(b, 0, limit) && |PageByPage(b, 0, limit)| == b.count
  {
    if Packed(b) {
      PagesConcatenate(b, 0, limit);
    } else {
      var i: nat :| |b.Chunk(i)| != PackedLength(b.count, i);
      assert Off(b, i);
      var k := FirstOff(b, i);
      FirstOffIsGap(b, k);
      GapBeforeEnd(b, k);
      PagesMeetGap(b, k, 0, limit);
    }
  }

  /**
   Of 1000 campaigns a transfer takes one from the first bucket, then another campaign arrives: it lands in slot 500 of
   the second bucket, and every page from 500 on ends and returns slots 0 to 499 only.
   */
  lemma OverfullBucketHides(b: Buckets, id: nat, start: nat, end: nat)
    requires Packed(b) && b.count == 2 * BUCKET_SIZE && BUCKET_SIZE <= start <= end <= 2 * BUCKET_SIZE
    ensures |b.Chunk(0)| == BUCKET_SIZE
    ensures var after := Append(Remove(b, 0, 0), id);
            && after.count == 2 * BUCKET_SIZE && after.Chunk(1) == b.Chunk(1) + [id] && |after.Chunk(1)| == BUCKET_SIZE + 1
            && Clear(after, start, end)
            && Collected(after, start, end) == after.Chunk(1)[start - BUCKET_SIZE..end - BUCKET_SIZE]
  {
    assert |b.Chunk(0)| == PackedLength(b.count, 0);
    assert |b.Chunk(1)| == PackedLength(b.count, 1);
    var after := Append(Remove(b, 0, 0), id);
    assert after.Chunk(1) == b.Chunk(1) + [id];
    if start < end {
      DivIs(start, 1);
    }
  }

  /** On every run a client reads the whole of a creator's list, in order, if and only if transfers have left no short bucket. */
  lemma CreatorPagesCompleteIff(s: State, ops: seq<Op>, a: Address, limit: nat)
    requires Init(s) && 0 < limit
    ensures var b := ByCreator(Run(s, ops).index, a);
            && (Packed(b) <==> PagesEnd(b, 0, limit) && |PageByPage(b, 0, limit)| == b.count)
            && (Packed(b) ==> PageByPage(b, 0, limit) == Flat(b))
  {
    hide Run, Init, PositionsInv, CategoryInv, TagInv, IdsInv, Packed, PagesEnd, PageByPage, Stacked, BucketLengths;
    IndexTheorems.IndexFrom(s, ops);
    var b := ByCreator(Run(s, ops).index, a);
    PagesCompleteIff(b, limit);
    if Packed(b) {
      PagesConcatenate(b, 0, limit);
      assert Flat(b)[0..] == Flat(b);
    }
  }
}
