/** Truncated basis-point slices: what the two parallel milestone shares add up to. */
module Slices {
  import opened Types
  import opened State
  import opened MilestonePayouts
  import opened Invariants

  lemma SliceMono(x: int, y: int, bps: nat)
    requires 0 <= x <= y
    ensures 0 <= Slice(x, bps) <= Slice(y, bps)
  {
    assert 0 <= x * bps <= y * bps;
  }

  /** Slicing a sum loses at most one unit against slicing the parts. */
  lemma SliceSplit(x: int, y: int, bps: nat)
    requires 0 <= x && 0 <= y
    ensures Slice(x, bps) + Slice(y, bps) <= Slice(x + y, bps) <= Slice(x, bps) + Slice(y, bps) + 1
  {
    assert (x + y) * bps == x * bps + y * bps;
  }

  lemma SliceBounds(x: int, bps: nat)
    requires 0 <= x
    ensures 0 <= Slice(x, bps) * BPS <= x * bps
  {
    assert 0 <= x * bps;
  }

  /** A fee rate of at most 100% leaves a fee and a remainder that both grow with the amount. */
  lemma FeeMono(x: int, y: int, rate: nat)
    requires 0 <= x <= y && rate <= BPS
    ensures 0 <= SliceUp(x, rate) <= x
    ensures SliceUp(x, rate) <= SliceUp(y, rate)
    ensures x - SliceUp(x, rate) <= y - SliceUp(y, rate)
  {
    assert 0 <= x * rate <= x * BPS;
    assert y * rate == x * rate + (y - x) * rate;
    assert 0 <= (y - x) * rate <= (y - x) * BPS;
  }

  // ---- Sums of slices -----------------------------------------------------------------------

  lemma {:induction false} SlicesMono(list: seq<Milestone>, claimed: set<nat>, x: int, y: int)
    requires 0 <= x <= y
    ensures 0 <= ClaimedSlices(list, claimed, x) <= ClaimedSlices(list, claimed, y)
    decreases |list|
  {
    if list != [] {
      SlicesMono(list[..|list| - 1], claimed, x, y);
      SliceMono(x, y, list[|list| - 1].payoutBps);
    }
  }

  function CountClaimed(list: seq<Milestone>, claimed: set<nat>): nat {
    if list == [] then 0
    else CountClaimed(list[..|list| - 1], claimed) + if list[|list| - 1].id in claimed then 1 else 0
  }

  lemma {:induction false} SlicesSplit(list: seq<Milestone>, claimed: set<nat>, x: int, y: int)
    requires 0 <= x && 0 <= y
    ensures ClaimedSlices(list, claimed, x) + ClaimedSlices(list, claimed, y) <= ClaimedSlices(list, claimed, x + y)
    ensures ClaimedSlices(list, claimed, x + y)
            <= ClaimedSlices(list, claimed, x) + ClaimedSlices(list, claimed, y) + CountClaimed(list, claimed)
    decreases |list|
  {
    if list != [] {
      SlicesSplit(list[..|list| - 1], claimed, x, y);
      SliceSplit(x, y, list[|list| - 1].payoutBps);
    }
  }

  lemma {:induction false} SlicesBound(list: seq<Milestone>, claimed: set<nat>, x: int)
    requires 0 <= x
    ensures ClaimedSlices(list, claimed, x) * BPS <= x * ClaimedBps(list, claimed)
    decreases |list|
  {
    if list != [] {
      var m := list[|list| - 1];
      SlicesBound(list[..|list| - 1], claimed, x);
      SliceBounds(x, m.payoutBps);
      var before := ClaimedBps(list[..|list| - 1], claimed);
      assert x * (before + m.payoutBps) == x * before + x * m.payoutBps;
    }
  }

  lemma {:induction false} ClaimedAtMostTotal(list: seq<Milestone>, claimed: set<nat>)
    ensures ClaimedBps(list, claimed) <= TotalBps(list)
    decreases |list|
  {
    if list != [] {
      ClaimedAtMostTotal(list[..|list| - 1], claimed);
    }
  }

  lemma AtMostWhole(x: int, bps: nat)
    requires 0 <= x && bps <= BPS
    ensures x * bps <= x * BPS
  {
    assert x * BPS == x * bps + x * (BPS - bps);
    assert 0 <= x * (BPS - bps);
  }

  lemma SharesAddUp(list: seq<Milestone>, claimed: set<nat>)
    requires list != [] ==> WellFormed(list)
    ensures ClaimedBps(list, claimed) <= BPS
  {
    ClaimedAtMostTotal(list, claimed);
  }

  /** The claimed slices never exceed the amount they are slices of. */
  lemma SlicesWithin(ms: Milestones, x: int)
    requires ms.list != [] ==> WellFormed(ms.list)
    requires 0 <= x
    ensures 0 <= ClaimedSlices(ms.list, ms.claimed, x) <= x
  {
    hide WellFormed, ClaimedSlices, ClaimedBps;
    SlicesMono(ms.list, ms.claimed, x, x);
    SlicesBound(ms.list, ms.claimed, x);
    SharesAddUp(ms.list, ms.claimed);
    AtMostWhole(x, ClaimedBps(ms.list, ms.claimed));
  }

  // ---- One more claim -----------------------------------------------------------------------

  lemma {:induction false} ClaimOutside(list: seq<Milestone>, claimed: set<nat>, id: nat, x: int)
    requires forall i | 0 <= i < |list| :: list[i].id != id
    ensures ClaimedSlices(list, claimed + {id}, x) == ClaimedSlices(list, claimed, x)
    ensures ClaimedBps(list, claimed + {id}) == ClaimedBps(list, claimed)
    decreases |list|
  {
    if list != [] {
      ClaimOutside(list[..|list| - 1], claimed, id, x);
    }
  }

  /** Claiming a milestone adds its slice and its share. */
  lemma {:induction false} ClaimOne(list: seq<Milestone>, claimed: set<nat>, k: nat, x: int)
    requires DistinctIds(list) && k < |list| && list[k].id !in claimed
    ensures ClaimedSlices(list, claimed + {list[k].id}, x)
            == ClaimedSlices(list, claimed, x) + Slice(x, list[k].payoutBps)
    ensures ClaimedBps(list, claimed + {list[k].id}) == ClaimedBps(list, claimed) + list[k].payoutBps
    decreases |list|
  {
    var front := list[..|list| - 1];
    if k == |list| - 1 {
      ClaimOutside(front, claimed, list[k].id, x);
    } else {
      assert front[k] == list[k];
      ClaimOne(front, claimed, k, x);
    }
  }

  lemma {:induction false} AllClaimedIff(list: seq<Milestone>, claimed: set<nat>)
    requires forall i | 0 <= i < |list| :: 0 < list[i].payoutBps
    ensures ClaimedBps(list, claimed) == TotalBps(list) <==> forall i | 0 <= i < |list| :: list[i].id in claimed
    decreases |list|
  {
    if list != [] {
      var front := list[..|list| - 1];
      AllClaimedIff(front, claimed);
      ClaimedAtMostTotal(front, claimed);
      assert forall i | 0 <= i < |front| :: front[i] == list[i];
    }
  }

  lemma {:induction false} CountBelow(list: seq<Milestone>, claimed: set<nat>, k: nat)
    requires k < |list| && list[k].id !in claimed
    ensures CountClaimed(list, claimed) <= |list| - 1
    decreases |list|
  {
    var front := list[..|list| - 1];
    if k < |front| {
      CountBelow(front, claimed, k);
    } else {
      CountAtMost(front, claimed);
    }
  }

  lemma {:induction false} CountAtMost(list: seq<Milestone>, claimed: set<nat>)
    ensures CountClaimed(list, claimed) <= |list|
    decreases |list|
  {
    if list != [] {
      CountAtMost(list[..|list| - 1], claimed);
    }
  }

  lemma {:induction false} FindFinds(list: seq<Milestone>, mid: nat) returns (k: nat)
    requires Find(list, mid).Some?
    ensures k < |list| && list[k] == Find(list, mid).value && list[k].id == mid
    decreases |list|
  {
    if list[0].id == mid {
      k := 0;
    } else {
      k := FindFinds(list[1..], mid);
      k := k + 1;
    }
  }

  /** The code's arithmetic test for the last unclaimed milestone says exactly that all others are claimed. */
  lemma LastIffOthersClaimed(ms: Milestones, k: nat)
    requires WellFormed(ms.list) && k < |ms.list| && ms.list[k].id !in ms.claimed
    ensures IsLast(ms, ms.list[k]) <==> AllOthersClaimed(ms, ms.list[k].id)
    ensures AllOthersClaimed(ms, ms.list[k].id) <==> AllClaimed(ms.(claimed := ms.claimed + {ms.list[k].id}))
    ensures !AllClaimed(ms)
  {
    var mid := ms.list[k].id;
    ClaimOne(ms.list, ms.claimed, k, 0);
    AllClaimedIff(ms.list, ms.claimed + {mid});
  }

  lemma SharesPositive(list: seq<Milestone>, k: nat)
    requires WellFormed(list) && k < |list|
    ensures 0 < list[k].payoutBps
  {
  }

  lemma LessThanWhole(x: int, bps: nat)
    requires 0 < x && bps < BPS
    ensures x * bps < x * BPS
  {
    assert x * BPS == x * bps + x * (BPS - bps);
    assert 0 < x * (BPS - bps);
  }

  /** The other slices leave the last milestone nothing only of nothing. */
  lemma LastLeaves(ms: Milestones, k: nat, x: int)
    requires WellFormed(ms.list) && k < |ms.list| && 0 <= x && IsLast(ms, ms.list[k])
    ensures 0 < x - ClaimedSlices(ms.list, ms.claimed, x) <==> 0 < x
  {
    hide WellFormed, ClaimedBps, ClaimedSlices;
    SharesPositive(ms.list, k);
    SlicesWithin(ms, x);
    SlicesBound(ms.list, ms.claimed, x);
    if 0 < x {
      LessThanWhole(x, ClaimedBps(ms.list, ms.claimed));
    }
  }
}
