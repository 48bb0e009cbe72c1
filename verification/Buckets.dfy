/**
 A list of campaign ids stored in numbered buckets: the category, tag and creator indexes
 (src/storage.rs), and the paginator they share (src/queries.rs).
 */
module Buckets {
  import opened Types

  datatype Buckets = Buckets(count: nat, chunks: map<nat, seq<nat>>) {
    /** A missing bucket reads as the empty vector. */
    function Chunk(i: nat): seq<nat> { if i in chunks then chunks[i] else [] }
  }

  const EMPTY: Buckets := Buckets(0, map[])

  function Append(b: Buckets, id: nat): Buckets {
    var i := b.count / BUCKET_SIZE;
    Buckets(b.count + 1, b.chunks[i := b.Chunk(i) + [id]])
  }

  /** What `Vec::set` on the hole followed by `pop_back` leaves. */
  function SwapOut(chunk: seq<nat>, slot: nat): seq<nat>
    requires slot < |chunk|
  {
    chunk[slot := chunk[|chunk| - 1]][..|chunk| - 1]
  }

  function Remove(b: Buckets, i: nat, slot: nat): Buckets
    requires slot < |b.Chunk(i)|
  {
    Buckets(if b.count == 0 then 0 else b.count - 1, b.chunks[i := SwapOut(b.Chunk(i), slot)])
  }

  /** How long bucket `i` of a list of `count` ids is when every bucket before the last is full. */
  function PackedLength(count: nat, i: nat): nat {
    if count <= i * BUCKET_SIZE then 0
    else if count - i * BUCKET_SIZE < BUCKET_SIZE then count - i * BUCKET_SIZE
    else BUCKET_SIZE
  }

  ghost predicate Packed(b: Buckets) {
    forall i: nat :: |b.Chunk(i)| == PackedLength(b.count, i)
  }

  ghost predicate FullBelow(b: Buckets, i: nat) { forall j: nat | j < i :: |b.Chunk(j)| == BUCKET_SIZE }

  /** A bucket that has only full ones before it is at most full. */
  ghost predicate Stacked(b: Buckets) { forall i: nat | FullBelow(b, i) :: |b.Chunk(i)| <= BUCKET_SIZE }

  lemma DivIs(p: nat, i: nat)
    requires i * BUCKET_SIZE <= p < (i + 1) * BUCKET_SIZE
    ensures p / BUCKET_SIZE == i && p % BUCKET_SIZE == p - i * BUCKET_SIZE
  {
  }

  /** The flat list a packed index stands for. */
  ghost function Flat(b: Buckets): (f: seq<nat>)
    requires Packed(b)
    ensures |f| == b.count
  {
    seq(b.count, p requires 0 <= p < b.count =>
      assert |b.Chunk(p / BUCKET_SIZE)| == PackedLength(b.count, p / BUCKET_SIZE);
      b.Chunk(p / BUCKET_SIZE)[p % BUCKET_SIZE])
  }

  /** Appending keeps the list packed and adds exactly the new id at the end. */
  lemma AppendPacked(b: Buckets, id: nat)
    requires Packed(b)
    ensures Packed(Append(b, id))
    ensures Flat(Append(b, id)) == Flat(b) + [id]
  {
    var b' := Append(b, id);
    var last := b.count / BUCKET_SIZE;
    assert |b.Chunk(last)| == PackedLength(b.count, last);
    forall i: nat
      ensures |b'.Chunk(i)| == PackedLength(b'.count, i)
    {
      assert |b.Chunk(i)| == PackedLength(b.count, i);
      if i < last {
        assert (i + 1) * BUCKET_SIZE <= last * BUCKET_SIZE;
      } else if last < i {
        assert (last + 1) * BUCKET_SIZE <= i * BUCKET_SIZE;
      }
    }
    forall p | 0 <= p < b.count
      ensures Flat(b')[p] == Flat(b)[p]
    {
      assert |b.Chunk(p / BUCKET_SIZE)| == PackedLength(b.count, p / BUCKET_SIZE);
    }
  }

  /** Swap-removal keeps the list packed exactly when the hole is in the last bucket in use. */
  lemma RemovePackedIff(b: Buckets, i: nat, slot: nat)
    requires Packed(b) && slot < |b.Chunk(i)|
    ensures Packed(Remove(b, i, slot)) <==> i == (b.count - 1) / BUCKET_SIZE
  {
    var b' := Remove(b, i, slot);
    var last := (b.count - 1) / BUCKET_SIZE;
    assert |b.Chunk(i)| == PackedLength(b.count, i);
    assert i <= last;
    if i < last {
      assert (i + 1) * BUCKET_SIZE <= last * BUCKET_SIZE <= b'.count;
      assert |b'.Chunk(i)| == BUCKET_SIZE - 1 < PackedLength(b'.count, i);
    } else {
      forall j: nat
        ensures |b'.Chunk(j)| == PackedLength(b'.count, j)
      {
        assert |b.Chunk(j)| == PackedLength(b.count, j);
        if j < last {
          assert (j + 1) * BUCKET_SIZE <= last * BUCKET_SIZE;
        } else if last < j {
          assert (last + 1) * BUCKET_SIZE <= j * BUCKET_SIZE;
        }
      }
    }
  }

  // ---- One turn of the paginator's outer loop -------------------------------------------------

  datatype Page = Page(position: nat, ids: seq<nat>)

  /** Reads on from `position` in its bucket, then moves past the bucket if it is used up. */
  function Turn(b: Buckets, end: nat, p: Page): Page
    requires p.position < end
  {
    var i := p.position / BUCKET_SIZE;
    var chunk := b.Chunk(i);
    var from := p.position % BUCKET_SIZE;
    var to := if |chunk| <= from then from
              else if |chunk| - from < end - p.position then |chunk|
              else from + (end - p.position);
    var ids := if from < to then p.ids + chunk[from..to] else p.ids;
    if to < |chunk| then Page(p.position + (to - from), ids)
    else if chunk == [] then Page(i * BUCKET_SIZE + BUCKET_SIZE, ids)
    else Page(i * BUCKET_SIZE + |chunk|, ids)
  }

  /** The state after `n` turns; finished pages stay put. */
  ghost function Turns(b: Buckets, end: nat, p: Page, n: nat): Page
    decreases n
  {
    if n == 0 || end <= p.position then p else Turns(b, end, Turn(b, end, p), n - 1)
  }

  ghost predicate Halts(b: Buckets, end: nat, p: Page) {
    exists n: nat :: end <= Turns(b, end, p, n).position
  }

  /** No bucket met on the way from `position` to `end` is short: neither empty nor full nor the one that reaches `end`. */
  predicate Clear(b: Buckets, position: nat, end: nat)
    decreases end - position
  {
    if end <= position then true
    else
      var i := position / BUCKET_SIZE;
      var len := |b.Chunk(i)|;
      if len == 0 then Clear(b, i * BUCKET_SIZE + BUCKET_SIZE, end)
      else if end <= i * BUCKET_SIZE + len then true
      else if BUCKET_SIZE <= len then Clear(b, i * BUCKET_SIZE + len, end)
      else false
  }

  lemma {:induction false} ClearHalts(b: Buckets, end: nat, p: Page)
    requires Clear(b, p.position, end)
    ensures Halts(b, end, p)
    decreases end - p.position
  {
    if end <= p.position {
      assert end <= Turns(b, end, p, 0).position;
    } else {
      var q := Turn(b, end, p);
      var i := p.position / BUCKET_SIZE;
      assert i * BUCKET_SIZE + p.position % BUCKET_SIZE == p.position;
      ClearHalts(b, end, q);
      var n: nat :| end <= Turns(b, end, q, n).position;
      assert end <= Turns(b, end, p, n + 1).position;
    }
  }

  /** At a short bucket the next turn comes back to the same position, for ever. */
  lemma {:induction false} ShortBucketLoops(b: Buckets, end: nat, p: Page, n: nat)
    requires p.position < end
    requires !Clear(b, p.position, end)
    ensures Turns(b, end, p, n).position < end
    decreases n
  {
    if n != 0 {
      var i := p.position / BUCKET_SIZE;
      assert i * BUCKET_SIZE + p.position % BUCKET_SIZE == p.position;
      var q := Turn(b, end, p);
      assert q.position < end && !Clear(b, q.position, end);
      ShortBucketLoops(b, end, q, n - 1);
    }
  }

  /** The paginator terminates exactly when the window meets no short bucket. */
  lemma HaltsIffClear(b: Buckets, start: nat, end: nat, ids: seq<nat>)
    ensures Halts(b, end, Page(start, ids)) <==> Clear(b, start, end)
  {
    var p := Page(start, ids);
    if Clear(b, start, end) {
      ClearHalts(b, end, p);
    } else {
      forall n: nat
        ensures Turns(b, end, p, n).position < end
      {
        ShortBucketLoops(b, end, p, n);
      }
    }
  }

  /** Removing the first of 501 campaigns leaves a short first bucket: reading the last page that begins in it never ends. */
  lemma RemovalCanHangPagination(b: Buckets)
    requires Packed(b) && b.count == BUCKET_SIZE + 1
    ensures !Halts(Remove(b, 0, 0), BUCKET_SIZE, Page(BUCKET_SIZE - LIST_MAX_LIMIT, []))
  {
    assert |b.Chunk(0)| == PackedLength(b.count, 0) == BUCKET_SIZE;
    HaltsIffClear(Remove(b, 0, 0), BUCKET_SIZE - LIST_MAX_LIMIT, BUCKET_SIZE, []);
  }

  /** In a packed index no window inside the list meets a short bucket. */
  lemma {:induction false} PackedIsClear(b: Buckets, position: nat, end: nat)
    requires Packed(b) && end <= b.count
    ensures Clear(b, position, end)
    decreases end - position
  {
    if position < end {
      var i := position / BUCKET_SIZE;
      assert |b.Chunk(i)| == PackedLength(b.count, i);
      assert i * BUCKET_SIZE + position % BUCKET_SIZE == position;
      if i * BUCKET_SIZE + |b.Chunk(i)| < end {
        PackedIsClear(b, i * BUCKET_SIZE + |b.Chunk(i)|, end);
      }
    }
  }

  // ---- What a page contains -----------------------------------------------------------------

  /** The ids collected from `position` on. */
  function Collected(b: Buckets, position: nat, end: nat): seq<nat>
    requires Clear(b, position, end)
    decreases end - position
  {
    if end <= position then []
    else
      var i := position / BUCKET_SIZE;
      var chunk := b.Chunk(i);
      var from := position % BUCKET_SIZE;
      if chunk == [] then Collected(b, i * BUCKET_SIZE + BUCKET_SIZE, end)
      else if end <= i * BUCKET_SIZE + |chunk| then chunk[from..from + (end - position)]
      else chunk[from..] + Collected(b, i * BUCKET_SIZE + |chunk|, end)
  }

  lemma BucketOfPacked(b: Buckets, i: nat)
    requires Packed(b)
    ensures |b.Chunk(i)| == PackedLength(b.count, i)
  {
  }

  /** A stretch of the flat list that one bucket holds. */
  lemma BucketIsSlice(b: Buckets, i: nat, position: nat, stop: nat)
    requires Packed(b) && i * BUCKET_SIZE <= position <= stop <= i * BUCKET_SIZE + |b.Chunk(i)| && stop <= b.count
    ensures b.Chunk(i)[position - i * BUCKET_SIZE..stop - i * BUCKET_SIZE] == Flat(b)[position..stop]
  {
    BucketOfPacked(b, i);
    forall p | position <= p < stop
      ensures Flat(b)[p] == b.Chunk(i)[p - i * BUCKET_SIZE]
    {
      DivIs(p, i);
    }
  }

  /** Pagination refines slicing: in a packed index a page is exactly that slice of the flat list. */
  lemma {:induction false} CollectedIsSlice(b: Buckets, position: nat, end: nat)
    requires Packed(b) && position <= end <= b.count
    ensures Clear(b, position, end)
    ensures Collected(b, position, end) == Flat(b)[position..end]
    decreases end - position
  {
    hide Flat, Packed;
    PackedIsClear(b, position, end);
    if position < end {
      var i := position / BUCKET_SIZE;
      assert i * BUCKET_SIZE + position % BUCKET_SIZE == position;
      BucketOfPacked(b, i);
      var next := i * BUCKET_SIZE + |b.Chunk(i)|;
      BucketIsSlice(b, i, position, if end <= next then end else next);
      if next < end {
        CollectedIsSlice(b, next, end);
        assert Flat(b)[position..end] == Flat(b)[position..next] + Flat(b)[next..end];
      }
    }
  }

  // ---- The paginator ------------------------------------------------------------------------

  /** Campaigns read by id; an id without a record is skipped. */
  function Lookup(campaigns: map<nat, Campaign>, ids: seq<nat>): seq<Campaign> {
    if ids == [] then []
    else
      var front := Lookup(campaigns, ids[..|ids| - 1]);
      var id := ids[|ids| - 1];
      if id in campaigns then front + [campaigns[id]] else front
  }

  lemma {:induction false} LookupAppend(campaigns: map<nat, Campaign>, xs: seq<nat>, ys: seq<nat>)
    ensures Lookup(campaigns, xs + ys) == Lookup(campaigns, xs) + Lookup(campaigns, ys)
    decreases |ys|
  {
    if ys == [] {
      assert xs + ys == xs;
    } else {
      var zs := ys[..|ys| - 1];
      assert (xs + ys)[..|xs + ys| - 1] == xs + zs;
      LookupAppend(campaigns, xs, zs);
    }
  }

  /** When every id has a record, position `k` of the page is the record of id `k`. */
  lemma {:induction false} LookupAll(campaigns: map<nat, Campaign>, ids: seq<nat>)
    requires forall id | id in ids :: id in campaigns
    ensures |Lookup(campaigns, ids)| == |ids|
    ensures forall k | 0 <= k < |ids| :: Lookup(campaigns, ids)[k] == campaigns[ids[k]]
    decreases |ids|
  {
    if ids != [] {
      LookupAll(campaigns, ids[..|ids| - 1]);
    }
  }

  function WindowEnd(start: nat, limit: nat, total: nat): nat {
    var capped := if limit < LIST_MAX_LIMIT then limit else LIST_MAX_LIMIT;
    if start + capped < total then start + capped else total
  }

  /** One turn of the outer loop collects the ids up to where it stops and leaves the rest to the next turn. */
  lemma TurnCollects(b: Buckets, position: nat, end: nat)
    requires position < end && Clear(b, position, end)
    ensures var q := Turn(b, end, Page(position, []));
            && position < q.position
            && Clear(b, q.position, end)
            && Collected(b, position, end) == q.ids + Collected(b, q.position, end)
  {
    var i := position / BUCKET_SIZE;
    assert i * BUCKET_SIZE + position % BUCKET_SIZE == position;
    var q := Turn(b, end, Page(position, []));
    assert q.ids + [] == q.ids;
  }

  function Part(chunk: seq<nat>, from: nat, to: nat): seq<nat> {
    if from < to <= |chunk| then chunk[from..to] else []
  }

  lemma PartNone(campaigns: map<nat, Campaign>, chunk: seq<nat>, from: nat)
    ensures Lookup(campaigns, Part(chunk, from, from)) == []
  {
  }

  lemma PartNext(campaigns: map<nat, Campaign>, chunk: seq<nat>, from: nat, idx: nat)
    requires from <= idx < |chunk|
    ensures Lookup(campaigns, Part(chunk, from, idx + 1))
         == Lookup(campaigns, Part(chunk, from, idx)) + if chunk[idx] in campaigns then [campaigns[chunk[idx]]] else []
  {
    assert Part(chunk, from, idx + 1) == Part(chunk, from, idx) + [chunk[idx]];
    LookupAppend(campaigns, Part(chunk, from, idx), [chunk[idx]]);
    assert Lookup(campaigns, [chunk[idx]]) == if chunk[idx] in campaigns then [campaigns[chunk[idx]]] else [];
  }

  /** The inner loop: at most `room` records of one bucket, from slot `from` on. */
  method ReadBucket(campaigns: map<nat, Campaign>, chunk: seq<nat>, from: nat, room: nat)
    returns (part: seq<Campaign>, idx: nat)
    ensures idx == if |chunk| <= from then from else if |chunk| - from < room then |chunk| else from + room
    ensures part == Lookup(campaigns, Part(chunk, from, idx))
  {
    hide Lookup, Part;
    part, idx := [], from;
    PartNone(campaigns, chunk, from);
    while idx < |chunk| && idx < from + room
      invariant from <= idx <= from + room
      invariant from < idx ==> idx <= |chunk|
      invariant part == Lookup(campaigns, Part(chunk, from, idx))
    {
      PartNext(campaigns, chunk, from, idx);
      if chunk[idx] in campaigns {
        part := part + [campaigns[chunk[idx]]];
      }
      idx := idx + 1;
    }
  }

  lemma CollectedAtEnd(b: Buckets, position: nat, end: nat)
    requires end <= position
    ensures Clear(b, position, end) && Collected(b, position, end) == []
  {
  }

  /** The body of the outer loop: one `Turn`. */
  method ReadOn(campaigns: map<nat, Campaign>, b: Buckets, position: nat, end: nat)
    returns (part: seq<Campaign>, next: nat)
    requires position < end
    ensures next == Turn(b, end, Page(position, [])).position
    ensures part == Lookup(campaigns, Turn(b, end, Page(position, [])).ids)
  {
    var i := position / BUCKET_SIZE;
    var chunk := b.Chunk(i);
    var bucketStart := i * BUCKET_SIZE;
    assert position - bucketStart == position % BUCKET_SIZE;
    var idx;
    part, idx := ReadBucket(campaigns, chunk, position - bucketStart, end - position);
    next := bucketStart + idx;
    if |chunk| <= idx {
      next := if |chunk| == 0 then bucketStart + BUCKET_SIZE else bucketStart + |chunk|;
    }
    assert Turn(b, end, Page(position, [])).ids == Part(chunk, position - bucketStart, idx);
  }

  method GetCampaignsFromBuckets(campaigns: map<nat, Campaign>, b: Buckets, start: nat, limit: nat)
    returns (page: seq<Campaign>)
    requires Clear(b, start, WindowEnd(start, limit, b.count))
    ensures b.count <= start || limit == 0 ==> page == []
    ensures page == Lookup(campaigns, Collected(b, start, WindowEnd(start, limit, b.count)))
  {
    hide Clear, Collected, Turn;
    page := [];
    var end := WindowEnd(start, limit, b.count);
    ghost var ids: seq<nat> := [];
    var position := start;
    while position < end
      invariant Clear(b, position, end)
      invariant Collected(b, start, end) == ids + Collected(b, position, end)
      invariant page == Lookup(campaigns, ids)
      decreases end - position
    {
      TurnCollects(b, position, end);
      ghost var taken := Turn(b, end, Page(position, [])).ids;
      LookupAppend(campaigns, ids, taken);
      var part, next := ReadOn(campaigns, b, position, end);
      page := page + part;
      ids := ids + taken;
      position := next;
    }
    CollectedAtEnd(b, position, end);
    if end <= start {
      CollectedAtEnd(b, start, end);
    }
    assert ids + [] == ids;
  }

  /** Every page a client asks for ends, each page starting where the last one ended. */
  predicate PagesEnd(b: Buckets, start: nat, limit: nat)
    requires 0 < limit
    decreases b.count - start
  {
    b.count <= start ||
    (Clear(b, start, WindowEnd(start, limit, b.count)) && PagesEnd(b, WindowEnd(start, limit, b.count), limit))
  }

  /** The ids that client reads. */
  function PageByPage(b: Buckets, start: nat, limit: nat): seq<nat>
    requires 0 < limit && PagesEnd(b, start, limit)
    decreases b.count - start
  {
    if b.count <= start then []
    else
      var end := WindowEnd(start, limit, b.count);
      Collected(b, start, end) + PageByPage(b, end, limit)
  }

  /** Of a packed index the pages all end and concatenate to the whole list. */
  lemma {:induction false} PagesConcatenate(b: Buckets, start: nat, limit: nat)
    requires Packed(b) && 0 < limit && start <= b.count
    ensures PagesEnd(b, start, limit)
    ensures PageByPage(b, start, limit) == Flat(b)[start..]
    decreases b.count - start
  {
    hide Flat, Packed, Clear, Collected;
    if start < b.count {
      var end := WindowEnd(start, limit, b.count);
      CollectedIsSlice(b, start, end);
      PagesConcatenate(b, end, limit);
      assert Flat(b)[start..] == Flat(b)[start..end] + Flat(b)[end..];
    }
  }
}
