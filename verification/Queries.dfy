/** src/queries.rs: the scans over campaign ids and the per-creator aggregate. */
module Queries {
  import opened Types
  import opened State
  import Buckets

  /** The stored campaigns by id. */
  function Campaigns(s: State): map<nat, Campaign> { map id | id in s.entries :: s.entries[id].campaign }

  // ---- list_campaigns -----------------------------------------------------------------------

  function Ids(lo: nat, hi: nat): seq<nat> { if hi <= lo then [] else Ids(lo, hi - 1) + [hi - 1] }

  method ListCampaigns(campaigns: map<nat, Campaign>, total: nat, start: nat, limit: nat) returns (page: seq<Campaign>)
    ensures page == Buckets.Lookup(campaigns, Ids(start + 1, Buckets.WindowEnd(start, limit, total) + 1))
  {
    page := [];
    var end := Buckets.WindowEnd(start, limit, total);
    var id := start + 1;
    while id <= end
      invariant start + 1 <= id && (id <= end + 1 || id == start + 1)
      invariant page == Buckets.Lookup(campaigns, Ids(start + 1, id))
    {
      assert Ids(start + 1, id + 1)[..|Ids(start + 1, id + 1)| - 1] == Ids(start + 1, id);
      if id in campaigns {
        page := page + [campaigns[id]];
      }
      id := id + 1;
    }
    if end < start {
      assert Ids(start + 1, end + 1) == [];
    }
  }

  lemma {:induction false} IdsAre(lo: nat, hi: nat)
    requires lo <= hi
    ensures |Ids(lo, hi)| == hi - lo && forall k | 0 <= k < hi - lo :: Ids(lo, hi)[k] == lo + k
    decreases hi
  {
    if lo < hi {
      IdsAre(lo, hi - 1);
    }
  }

  /** With ids 1 to `total` stored, a page is the next `min(limit, 50)` campaigns in id order, one record each. */
  lemma ListedInOrder(campaigns: map<nat, Campaign>, total: nat, start: nat, limit: nat)
    requires forall id :: id in campaigns <==> 1 <= id <= total
    requires start <= total
    ensures var end := Buckets.WindowEnd(start, limit, total);
            var page := Buckets.Lookup(campaigns, Ids(start + 1, end + 1));
            && |page| == end - start
            && forall k | 0 <= k < end - start :: page[k] == campaigns[start + 1 + k]
  {
    hide Buckets.Lookup, Ids;
    var end := Buckets.WindowEnd(start, limit, total);
    var ids := Ids(start + 1, end + 1);
    IdsAre(start + 1, end + 1);
    forall k | 0 <= k < |ids|
      ensures ids[k] in campaigns
    {
    }
    Buckets.LookupAll(campaigns, ids);
  }

  // ---- list_active_campaigns ----------------------------------------------------------------

  predicate Listed(campaigns: map<nat, Campaign>, id: nat) {
    id in campaigns && campaigns[id].isActive && !campaigns[id].isCancelled
  }

  /** The active campaigns with ids from `lo` up to, not including, `hi`, in order. */
  function ActiveIn(campaigns: map<nat, Campaign>, lo: nat, hi: nat): seq<Campaign> {
    if hi <= lo then []
    else ActiveIn(campaigns, lo, hi - 1) + if Listed(campaigns, hi - 1) then [campaigns[hi - 1]] else []
  }

  /** The scan from `current` on with `page` collected so far. */
  function Scan(campaigns: map<nat, Campaign>, total: nat, start: nat, cap: nat, current: nat, page: seq<Campaign>): (seq<Campaign>, nat)
    decreases total + 1 - current
  {
    if total < current then (page, 0)
    else if start + MAX_SCAN_WINDOW < current then (page, current)
    else if Listed(campaigns, current) then
      var more := page + [campaigns[current]];
      if cap <= |more| then (more, current + 1) else Scan(campaigns, total, start, cap, current + 1, more)
    else Scan(campaigns, total, start, cap, current + 1, page)
  }

  function ListActive(campaigns: map<nat, Campaign>, total: nat, start: nat, limit: nat): (seq<Campaign>, nat) {
    if total <= start || limit == 0 then ([], 0)
    else Scan(campaigns, total, start, if limit < LIST_MAX_LIMIT then limit else LIST_MAX_LIMIT, start + 1, [])
  }

  method ListActiveCampaigns(campaigns: map<nat, Campaign>, total: nat, start: nat, limit: nat)
    returns (page: seq<Campaign>, next: nat)
    ensures (page, next) == ListActive(campaigns, total, start, limit)
  {
    page, next := [], 0;
    if total <= start || limit == 0 {
      return;
    }
    var cap := if limit < LIST_MAX_LIMIT then limit else LIST_MAX_LIMIT;
    var collected := 0;
    var current := start + 1;
    while current <= total
      invariant collected == |page| && next == 0 && start < current
      invariant Scan(campaigns, total, start, cap, start + 1, []) == Scan(campaigns, total, start, cap, current, page)
    {
      if start + MAX_SCAN_WINDOW < current {
        next := current;
        return;
      }
      if current in campaigns && campaigns[current].isActive && !campaigns[current].isCancelled {
        page := page + [campaigns[current]];
        collected := collected + 1;
        if cap <= collected {
          next := current + 1;
          return;
        }
      }
      current := current + 1;
    }
  }

  lemma {:induction false} ScanIs(campaigns: map<nat, Campaign>, total: nat, start: nat, cap: nat, current: nat, page: seq<Campaign>)
    requires start < current <= total + 1 && page == ActiveIn(campaigns, start + 1, current)
    requires |page| < cap && (current == start + 1 ==> current <= total)
    requires current <= start + MAX_SCAN_WINDOW + 1
    ensures var (p, next) := Scan(campaigns, total, start, cap, current, page);
            && |p| <= cap
            && (next == 0 ==> p == ActiveIn(campaigns, start + 1, total + 1))
            && (next != 0 ==> start + 1 < next <= total + 1 && p == ActiveIn(campaigns, start + 1, next)
                              && (|p| == cap || next == start + MAX_SCAN_WINDOW + 1))
    decreases total + 1 - current
  {
    if current <= total && current <= start + MAX_SCAN_WINDOW {
      var more := if Listed(campaigns, current) then page + [campaigns[current]] else page;
      if |more| < cap {
        ScanIs(campaigns, total, start, cap, current + 1, more);
      }
    }
  }

  /**
   A non-zero cursor is the first id not scanned and every active campaign before it, after `start`, is on the
   page; zero means the scan reached the end.
   */
  lemma CursorIsFirstUnscanned(campaigns: map<nat, Campaign>, total: nat, start: nat, limit: nat)
    requires 0 < limit
    ensures var (page, next) := ListActive(campaigns, total, start, limit);
            && |page| <= limit && |page| <= LIST_MAX_LIMIT
            && (next == 0 ==> page == ActiveIn(campaigns, start + 1, total + 1))
            && (next != 0 ==> start + 1 < next <= total + 1 && page == ActiveIn(campaigns, start + 1, next))
  {
    if start < total {
      var cap := if limit < LIST_MAX_LIMIT then limit else LIST_MAX_LIMIT;
      ScanIs(campaigns, total, start, cap, start + 1, []);
    } else {
      assert ActiveIn(campaigns, start + 1, total + 1) == [];
    }
  }

  /** What a client reads that re-queries with `start = next_cursor - 1` until the cursor is zero. */
  ghost function ReadAll(campaigns: map<nat, Campaign>, total: nat, start: nat, limit: nat): seq<Campaign>
    requires 0 < limit
    decreases total + 1 - start
  {
    var (page, next) := ListActive(campaigns, total, start, limit);
    CursorIsFirstUnscanned(campaigns, total, start, limit);
    if next == 0 then page else page + ReadAll(campaigns, total, next - 1, limit)
  }

  lemma {:induction false} ActiveSplit(campaigns: map<nat, Campaign>, lo: nat, mid: nat, hi: nat)
    requires lo <= mid <= hi
    ensures ActiveIn(campaigns, lo, hi) == ActiveIn(campaigns, lo, mid) + ActiveIn(campaigns, mid, hi)
    decreases hi
  {
    if mid < hi {
      ActiveSplit(campaigns, lo, mid, hi - 1);
    }
  }

  /** That client reads every active campaign exactly once, in order, and stops. */
  lemma {:induction false} ReadAllIsEverything(campaigns: map<nat, Campaign>, total: nat, start: nat, limit: nat)
    requires 0 < limit
    ensures ReadAll(campaigns, total, start, limit) == ActiveIn(campaigns, start + 1, total + 1)
    decreases total + 1 - start
  {
    hide ListActive;
    var (page, next) := ListActive(campaigns, total, start, limit);
    CursorIsFirstUnscanned(campaigns, total, start, limit);
    if next != 0 {
      ReadAllIsEverything(campaigns, total, next - 1, limit);
      ActiveSplit(campaigns, start + 1, next, total + 1);
    }
  }

  // A client that follows the comment instead passes the cursor itself as `start`, every time.

  ghost function ReadByCursor(campaigns: map<nat, Campaign>, total: nat, start: nat, limit: nat): seq<Campaign>
    requires 0 < limit
    decreases total + 1 - start
  {
    var (page, next) := ListActive(campaigns, total, start, limit);
    CursorIsFirstUnscanned(campaigns, total, start, limit);
    if next == 0 then page else page + ReadByCursor(campaigns, total, next, limit)
  }

  /** The cursors that client is handed before the last page. */
  ghost function Cursors(campaigns: map<nat, Campaign>, total: nat, start: nat, limit: nat): seq<nat>
    requires 0 < limit
    decreases total + 1 - start
  {
    var (_, next) := ListActive(campaigns, total, start, limit);
    CursorIsFirstUnscanned(campaigns, total, start, limit);
    if next == 0 then [] else [next] + Cursors(campaigns, total, next, limit)
  }

  predicate Skippable(campaigns: map<nat, Campaign>, total: nat, cursor: nat) {
    !(cursor <= total && Listed(campaigns, cursor))
  }

  /** That client reads everything if and only if none of the cursors it is handed names an active campaign. */
  lemma {:induction false} CursorAsStartLosesIff(campaigns: map<nat, Campaign>, total: nat, start: nat, limit: nat)
    requires 0 < limit
    ensures |ReadByCursor(campaigns, total, start, limit)| <= |ActiveIn(campaigns, start + 1, total + 1)|
    ensures ReadByCursor(campaigns, total, start, limit) == ActiveIn(campaigns, start + 1, total + 1)
       <==> forall c | c in Cursors(campaigns, total, start, limit) :: Skippable(campaigns, total, c)
    decreases total + 1 - start
  {
    hide ListActive, ActiveIn, Skippable;
    var (page, next) := ListActive(campaigns, total, start, limit);
    CursorIsFirstUnscanned(campaigns, total, start, limit);
    if next != 0 {
      CursorAsStartLosesIff(campaigns, total, next, limit);
      ActiveSplit(campaigns, start + 1, next, total + 1);
      SkipOne(campaigns, total, next);
      var rest := ReadByCursor(campaigns, total, next, limit);
      SamePrefix(page, rest, ActiveIn(campaigns, next, total + 1));
      assert next in Cursors(campaigns, total, start, limit);
    }
  }

  lemma SkipOne(campaigns: map<nat, Campaign>, total: nat, next: nat)
    requires next <= total + 1
    ensures |ActiveIn(campaigns, next + 1, total + 1)| <= |ActiveIn(campaigns, next, total + 1)|
    ensures Skippable(campaigns, total, next) ==> ActiveIn(campaigns, next + 1, total + 1) == ActiveIn(campaigns, next, total + 1)
    ensures !Skippable(campaigns, total, next) ==>
              |ActiveIn(campaigns, next + 1, total + 1)| < |ActiveIn(campaigns, next, total + 1)|
  {
    if next <= total {
      ActiveSplit(campaigns, next, next + 1, total + 1);
      assert ActiveIn(campaigns, next, next) == [];
    }
  }

  lemma SamePrefix<T>(prefix: seq<T>, x: seq<T>, y: seq<T>)
    ensures prefix + x == prefix + y <==> x == y
  {
    if prefix + x == prefix + y {
      assert x == (prefix + x)[|prefix|..];
      assert y == (prefix + y)[|prefix|..];
    }
  }

  /**
   Pages of one over four campaigns of which the second is inactive: the first cursor names an inactive campaign and
   costs nothing, the second names the fourth campaign, which is lost.
   */
  lemma CursorAsStartSkips(campaigns: map<nat, Campaign>)
    requires Listed(campaigns, 1) && !Listed(campaigns, 2) && Listed(campaigns, 3) && Listed(campaigns, 4)
    ensures Cursors(campaigns, 4, 0, 1) == [2, 4]
    ensures ReadByCursor(campaigns, 4, 0, 1) == [campaigns[1], campaigns[3]]
    ensures ReadAll(campaigns, 4, 0, 1) == [campaigns[1], campaigns[3], campaigns[4]]
  {
    PageOfOne(campaigns, 4, 0);
    PageOfOne(campaigns, 4, 2);
    assert ListActive(campaigns, 4, 4, 1) == ([], 0);
    assert Cursors(campaigns, 4, 4, 1) == [] && ReadByCursor(campaigns, 4, 4, 1) == [];
    assert Cursors(campaigns, 4, 2, 1) == [4] && ReadByCursor(campaigns, 4, 2, 1) == [campaigns[3]];
    ReadAllIsEverything(campaigns, 4, 0, 1);
    assert ActiveIn(campaigns, 1, 1) == [] && ActiveIn(campaigns, 1, 2) == [campaigns[1]] == ActiveIn(campaigns, 1, 3);
    assert ActiveIn(campaigns, 1, 4) == [campaigns[1], campaigns[3]];
  }

  lemma PageOfOne(campaigns: map<nat, Campaign>, total: nat, start: nat)
    requires start < total && Listed(campaigns, start + 1)
    ensures ListActive(campaigns, total, start, 1) == ([campaigns[start + 1]], start + 2)
  {
    assert [] + [campaigns[start + 1]] == [campaigns[start + 1]];
  }

  // ---- get_creator_stats --------------------------------------------------------------------

  /** The sums `get_creator_stats` returns beside the creator's campaign count. */
  datatype Stats = Stats(active: nat, raised: int, contributors: nat)

  function AddStats(t: Stats, entries: map<nat, Entry>, id: nat): Stats {
    if id !in entries then t
    else
      var c := entries[id].campaign;
      Stats(t.active + (if c.isActive && !c.isCancelled then 1 else 0),
            t.raised + (if c.isCancelled then 0 else c.amountRaised),
            t.contributors + entries[id].ledger.contributorCount)
  }

  function StatsOf(entries: map<nat, Entry>, ids: seq<nat>): Stats {
    if ids == [] then Stats(0, 0, 0) else AddStats(StatsOf(entries, ids[..|ids| - 1]), entries, ids[|ids| - 1])
  }

  /** The ids in the first `n` buckets. */
  function BucketIds(b: Buckets.Buckets, n: nat): seq<nat> { if n == 0 then [] else BucketIds(b, n - 1) + b.Chunk(n - 1) }

  function BucketsRead(count: nat): nat { (count + BUCKET_SIZE - 1) / BUCKET_SIZE }

  method GetCreatorStats(entries: map<nat, Entry>, b: Buckets.Buckets) returns (total: nat, t: Stats)
    ensures total == b.count
    ensures t == StatsOf(entries, BucketIds(b, BucketsRead(b.count)))
  {
    total, t := b.count, Stats(0, 0, 0);
    for i := 0 to BucketsRead(total)
      invariant t == StatsOf(entries, BucketIds(b, i))
    {
      var chunk := b.Chunk(i);
      assert BucketIds(b, i) + chunk[..0] == BucketIds(b, i);
      for k := 0 to |chunk|
        invariant t == StatsOf(entries, BucketIds(b, i) + chunk[..k])
      {
        var ids := BucketIds(b, i) + chunk[..k + 1];
        assert ids[..|ids| - 1] == BucketIds(b, i) + chunk[..k];
        t := AddStats(t, entries, chunk[k]);
      }
      assert chunk[..|chunk|] == chunk;
    }
  }

  /** In a packed index the aggregate covers the creator's whole list, in order and once each. */
  lemma PackedStatsAreComplete(b: Buckets.Buckets)
    requires Buckets.Packed(b)
    ensures BucketIds(b, BucketsRead(b.count)) == Buckets.Flat(b)
  {
    BucketPrefix(b, BucketsRead(b.count));
  }

  lemma {:induction false} BucketPrefix(b: Buckets.Buckets, n: nat)
    requires Buckets.Packed(b) && n <= BucketsRead(b.count)
    ensures var end := if n * BUCKET_SIZE < b.count then n * BUCKET_SIZE else b.count;
            BucketIds(b, n) == Buckets.Flat(b)[..end]
    decreases n
  {
    if n != 0 {
      var start := (n - 1) * BUCKET_SIZE;
      var end := if n * BUCKET_SIZE < b.count then n * BUCKET_SIZE else b.count;
      BucketPrefix(b, n - 1);
      assert |b.Chunk(n - 1)| == Buckets.PackedLength(b.count, n - 1) == end - start;
      forall p | start <= p < end
        ensures Buckets.Flat(b)[p] == b.Chunk(n - 1)[p - start]
      {
        Buckets.DivIs(p, n - 1);
      }
      assert b.Chunk(n - 1) == Buckets.Flat(b)[start..end];
      assert Buckets.Flat(b)[..end] == Buckets.Flat(b)[..start] + Buckets.Flat(b)[start..end];
    }
  }

  /** No campaign sits in two buckets, as is the case in every reachable creator index. */
  ghost predicate OneBucketEach(b: Buckets.Buckets) {
    forall i: nat, j: nat, k: nat, l: nat | k < |b.Chunk(i)| && l < |b.Chunk(j)| && b.Chunk(i)[k] == b.Chunk(j)[l] :: i == j
  }

  lemma {:induction false} ReadIffBelow(b: Buckets.Buckets, n: nat, i: nat, k: nat)
    requires OneBucketEach(b) && k < |b.Chunk(i)|
    ensures b.Chunk(i)[k] in BucketIds(b, n) <==> i < n
    decreases n
  {
    if n != 0 {
      ReadIffBelow(b, n - 1, i, k);
    }
  }

  /** The aggregate covers every campaign on the list if and only if no bucket past the `ceil(count / 500)` it reads is in use. */
  lemma StatsCoverIff(b: Buckets.Buckets)
    requires OneBucketEach(b)
    ensures (forall i: nat, k: nat | k < |b.Chunk(i)| :: b.Chunk(i)[k] in BucketIds(b, BucketsRead(b.count)))
       <==> (forall i: nat | BucketsRead(b.count) <= i :: b.Chunk(i) == [])
  {
    hide BucketsRead, BucketIds, OneBucketEach;
    var n := BucketsRead(b.count);
    forall i: nat, k: nat | k < |b.Chunk(i)|
      ensures b.Chunk(i)[k] in BucketIds(b, n) <==> i < n
    {
      ReadIffBelow(b, n, i, k);
    }
    if i: nat :| n <= i && b.Chunk(i) != [] {
      assert 0 < |b.Chunk(i)| && b.Chunk(i)[0] !in BucketIds(b, n);
    }
  }

  /** Of 501 campaigns a transfer takes the first away: the aggregate over the remaining 500 no longer sees the last one. */
  lemma RemovalHidesCampaign(b: Buckets.Buckets)
    requires Buckets.Packed(b) && b.count == BUCKET_SIZE + 1 && OneBucketEach(b)
    ensures |b.Chunk(0)| == BUCKET_SIZE && |b.Chunk(1)| == 1
    ensures var left := Buckets.Remove(b, 0, 0);
            left.Chunk(1) == b.Chunk(1) && b.Chunk(1)[0] !in BucketIds(left, BucketsRead(left.count))
  {
    assert |b.Chunk(0)| == Buckets.PackedLength(b.count, 0);
    assert |b.Chunk(1)| == Buckets.PackedLength(b.count, 1);
    var left := Buckets.Remove(b, 0, 0);
    var last := b.Chunk(1)[0];
    assert BucketIds(left, 1) == BucketIds(left, 0) + left.Chunk(0) == left.Chunk(0);
    forall k | 0 <= k < |left.Chunk(0)|
      ensures left.Chunk(0)[k] != last
    {
      assert left.Chunk(0)[k] == b.Chunk(0)[if k == 0 then BUCKET_SIZE - 1 else k];
    }
  }
}
