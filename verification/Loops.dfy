/** The loops of src/milestones.rs, src/contributions.rs and src/lib.rs that compute a value. */
module Loops {
  import opened Types
  import opened State
  import opened Contributions
  import opened MilestonePayouts
  import BatchProofs

  lemma PrefixStep<T>(xs: seq<T>, i: nat)
    requires i < |xs|
    ensures xs[..i + 1][..i] == xs[..i] && xs[..i + 1][i] == xs[i] && |xs[..i + 1]| == i + 1
  {
  }

  /** The validation loop of `set_milestones`. */
  method CheckMilestones(list: seq<Milestone>) returns (ok: bool)
    ensures ok <==> WellFormed(list)
  {
    var total: nat := 0;
    var seen: seq<nat> := [];
    for i := 0 to |list|
      invariant total == TotalBps(list[..i])
      invariant |seen| == i && forall k | 0 <= k < i :: seen[k] == list[k].id
      invariant DistinctIds(list[..i])
      invariant forall k | 0 <= k < i :: 0 < list[k].payoutBps <= BPS && list[k].description != []
    {
      var m := list[i];
      if m.payoutBps == 0 || BPS < m.payoutBps || m.description == [] {
        return false;
      }
      if m.id in seen {
        var k :| 0 <= k < i && seen[k] == m.id;
        assert list[k].id == list[i].id;
        return false;
      }
      PrefixStep(list, i);
      seen := seen + [m.id];
      total := total + m.payoutBps;
    }
    assert list[..|list|] == list;
    ok := total == BPS;
  }

  /** The loop of `verify_milestone`. */
  method MarkMilestone(list: seq<Milestone>, mid: nat) returns (r: Result<seq<Milestone>>)
    ensures r == if !(forall i | 0 <= i < |list| :: list[i].id == mid ==> !list[i].verified) then Err(ValidationFailed)
                 else if !(exists i | 0 <= i < |list| :: list[i].id == mid) then Err(MilestoneNotFound)
                 else Ok(MarkVerified(list, mid))
  {
    var found := false;
    var updated: seq<Milestone> := [];
    for i := 0 to |list|
      invariant |updated| == i
      invariant found <==> exists k | 0 <= k < i :: list[k].id == mid
      invariant forall k | 0 <= k < i :: list[k].id == mid ==> !list[k].verified
      invariant forall k | 0 <= k < i :: updated[k] == if list[k].id == mid then list[k].(verified := true) else list[k]
    {
      var m := list[i];
      if m.id == mid {
        if m.verified {
          return Err(ValidationFailed);
        }
        found := true;
        updated := updated + [m.(verified := true)];
      } else {
        updated := updated + [m];
      }
    }
    if !found {
      return Err(MilestoneNotFound);
    }
    assert updated == MarkVerified(list, mid);
    return Ok(updated);
  }

  /** The two summing loops of `claim_milestone`: claimed shares and their slices of `amount`. */
  method ClaimedTotals(list: seq<Milestone>, claimed: set<nat>, amount: int) returns (r: Result<(nat, int)>)
    ensures r == if SlicesFit(list, claimed, amount) then Ok((ClaimedBps(list, claimed), ClaimedSlices(list, claimed, amount)))
                 else Err(Overflow)
  {
    var bps: nat, sum := 0, 0;
    for i := 0 to |list|
      invariant bps == ClaimedBps(list[..i], claimed) && sum == ClaimedSlices(list[..i], claimed, amount)
      invariant forall k | 0 <= k < i && list[k].id in claimed :: FitsI128(amount * list[k].payoutBps)
    {
      var m := list[i];
      PrefixStep(list, i);
      if m.id in claimed {
        if !FitsI128(amount * m.payoutBps) {
          return Err(Overflow);
        }
        bps := bps + m.payoutBps;
        sum := sum + amount * m.payoutBps / BPS;
      }
    }
    assert list[..|list|] == list;
    return Ok((bps, sum));
  }

  /** The completion loop of `claim_milestone`. */
  method OthersClaimed(ms: Milestones, mid: nat) returns (all: bool)
    ensures all == AllOthersClaimed(ms, mid)
  {
    for i := 0 to |ms.list|
      invariant forall k | 0 <= k < i && ms.list[k].id != mid :: ms.list[k].id in ms.claimed
    {
      if ms.list[i].id != mid && ms.list[i].id !in ms.claimed {
        return false;
      }
    }
    return true;
  }

  /** The search loop of `claim_milestone`. */
  method FindMilestone(list: seq<Milestone>, mid: nat) returns (target: Option<Milestone>)
    ensures target == Find(list, mid)
  {
    var i := 0;
    while i < |list|
      invariant 0 <= i <= |list|
      invariant Find(list, mid) == Find(list[i..], mid)
    {
      if list[i].id == mid {
        return Some(list[i]);
      }
      assert list[i..][1..] == list[i + 1..];
      i := i + 1;
    }
    return None;
  }

  /** The settling loop of `batch_contribute`: one transfer per token, in any order. */
  method PayOwed(bank: Bank, who: Address, owed: map<Address, int>) returns (r: Result<Bank>)
    requires CanSign(who) && forall t | t in owed :: 0 < owed[t]
    ensures r == if Affordable(bank, who, owed) then Ok(Settle(bank, who, owed)) else Err(TransferFailed)
  {
    hide Settle, Affordable, Transfer;
    var b := bank;
    var pending := owed.Keys;
    BatchProofs.SettleNothing(bank, who);
    assert owed - owed.Keys == map[];
    while pending != {}
      invariant pending <= owed.Keys
      invariant b == Settle(bank, who, owed - pending) && Affordable(bank, who, owed - pending)
      decreases pending
    {
      var t :| t in pending;
      PayStep(bank, who, owed, pending, t);
      var paid := Transfer(b, t, who, SELF, owed[t]);
      if paid.Err? {
        return Err(TransferFailed);
      }
      b, pending := paid.value, pending - {t};
    }
    assert owed - pending == owed;
    return Ok(b);
  }

  lemma PayStep(bank: Bank, who: Address, owed: map<Address, int>, pending: set<Address>, t: Address)
    requires CanSign(who) && t in pending && pending <= owed.Keys && forall x | x in owed :: 0 < owed[x]
    requires Affordable(bank, who, owed - pending)
    ensures var paid := Transfer(Settle(bank, who, owed - pending), t, who, SELF, owed[t]);
            && (paid.Err? ==> !Affordable(bank, who, owed))
            && (paid.Ok? ==> Affordable(bank, who, owed - (pending - {t})) && paid.value == Settle(bank, who, owed - (pending - {t})))
  {
    hide Settle, Affordable, Transfer;
    BatchProofs.SettleOneMore(bank, who, owed - pending, t, owed[t]);
    assert BatchProofs.Owing(owed - pending, t, owed[t]) == owed - (pending - {t});
    LessAffordable(bank, who, owed - (pending - {t}), owed);
  }

  lemma LessAffordable(bank: Bank, who: Address, part: map<Address, int>, owed: map<Address, int>)
    requires part.Keys <= owed.Keys && forall t | t in part :: part[t] == owed[t]
    ensures Affordable(bank, who, owed) ==> Affordable(bank, who, part)
  {
  }

  lemma MembersStep(xs: seq<Address>, i: nat)
    requires i < |xs|
    ensures Members(xs[..i + 1]) == Members(xs[..i]) + {xs[i]}
  {
    assert xs[..i + 1] == xs[..i] + [xs[i]];
  }

  /** The loop of `purge_voting_state`. */
  method WithoutVoters(voted: set<Address>, voters: seq<Address>) returns (left: set<Address>)
    ensures left == voted - Members(voters)
  {
    left := voted;
    for i := 0 to |voters|
      invariant left == voted - Members(voters[..i])
    {
      left := left - {voters[i]};
      MembersStep(voters, i);
    }
    assert voters[..|voters|] == voters;
  }
}
