/** Milestone payouts: exact under fixed terms, never above the amount raised under one fee rate, and never far above it. */
module MilestoneProofs {
  import opened Types
  import opened State
  import opened MilestonePayouts
  import opened Invariants
  import opened Slices

  function After(ms: Milestones, mid: nat): Milestones { ms.(claimed := ms.claimed + {mid}) }

  /** A claim releases exactly the difference, in either share and in the last claim as in the others. */
  lemma ClaimReleases(ms: Milestones, k: nat, x: int)
    requires WellFormed(ms.list) && k < |ms.list| && ms.list[k].id !in ms.claimed
    requires 0 <= x
    ensures Released(After(ms, ms.list[k].id), x) == Released(ms, x) + PayoutOf(ms, ms.list[k], x)
    ensures FeePayoutOf(ms, ms.list[k], x) == PayoutOf(ms, ms.list[k], x)
    ensures 0 <= PayoutOf(ms, ms.list[k], x)
  {
    var m := ms.list[k];
    LastIffOthersClaimed(ms, k);
    ClaimOne(ms.list, ms.claimed, k, x);
    SlicesWithin(After(ms, m.id), x);
    SliceMono(x, x, m.payoutBps);
  }

  /** Contributions arriving between claims only widen what the claims so far stay under. */
  lemma PaidGrowth(c: Campaign, c': Campaign, ms: Milestones, a: Audit)
    requires PaidInv(c, ms, a) && !Completed(ms)
    requires 0 <= c.amountRaised <= c'.amountRaised
    ensures PaidInv(c', ms, a)
  {
    var x, y := c.amountRaised, c'.amountRaised;
    SlicesMono(ms.list, ms.claimed, x, y);
    forall rate: nat | SameRate(a, rate) && rate <= BPS
      ensures a.creatorPaid <= Released(ms, y - SliceUp(y, rate))
      ensures a.feePaid <= Released(ms, SliceUp(y, rate))
    {
      FeeMono(x, y, rate);
      SlicesMono(ms.list, ms.claimed, x - SliceUp(x, rate), y - SliceUp(y, rate));
      SlicesMono(ms.list, ms.claimed, SliceUp(x, rate), SliceUp(y, rate));
    }
  }

  /** The two shares of one claim against one slice of the whole. */
  lemma ClaimWithin(ms: Milestones, k: nat, afterFee: int, fee: int)
    requires WellFormed(ms.list) && k < |ms.list| && ms.list[k].id !in ms.claimed
    requires 0 <= afterFee && 0 <= fee
    ensures var ms' := After(ms, ms.list[k].id);
            Released(ms, afterFee + fee) + PayoutOf(ms, ms.list[k], afterFee) + PayoutOf(ms, ms.list[k], fee)
            <= Released(ms', afterFee + fee) + if Completed(ms') then |ms.list| - 1 else 0
  {
    var m := ms.list[k];
    LastIffOthersClaimed(ms, k);
    if IsLast(ms, m) {
      SlicesSplit(ms.list, ms.claimed, afterFee, fee);
      CountBelow(ms.list, ms.claimed, k);
    } else {
      ClaimOne(ms.list, ms.claimed, k, afterFee + fee);
      SliceSplit(afterFee, fee, m.payoutBps);
    }
  }

  /** Every claim keeps all three accounts of what has been paid. */
  lemma PaidClaim(c: Campaign, ms: Milestones, a: Audit, k: nat, rate: nat)
    requires PaidInv(c, ms, a) && WellFormed(ms.list) && k < |ms.list| && ms.list[k].id !in ms.claimed
    requires 0 <= c.amountRaised && rate <= PLATFORM_FEE_MAX_BPS
    requires 0 < PayoutOf(ms, ms.list[k], c.amountRaised - SliceUp(c.amountRaised, rate))
    ensures var fee := SliceUp(c.amountRaised, rate);
            var pay := PayoutOf(ms, ms.list[k], c.amountRaised - fee);
            var feePay := FeePayoutOf(ms, ms.list[k], fee);
            PaidInv(c, After(ms, ms.list[k].id), ClaimAudit(a, c.amountRaised, rate, pay, feePay))
  {
    hide WellFormed, Released, PayoutOf, FeePayoutOf, Completed;
    var m := ms.list[k];
    var fee := SliceUp(c.amountRaised, rate);
    var afterFee := c.amountRaised - fee;
    FeeMono(c.amountRaised, c.amountRaised, rate);
    ClaimReleases(ms, k, afterFee);
    ClaimReleases(ms, k, fee);
    ClaimReleases(ms, k, c.amountRaised);
    ClaimWithin(ms, k, afterFee, fee);
    LastIffOthersClaimed(ms, k);
    assert !Completed(ms) by { assert !AllClaimed(ms); NotCompleted(ms); }
    var ms' := After(ms, m.id);
    var a' := ClaimAudit(a, c.amountRaised, rate, PayoutOf(ms, m, afterFee), FeePayoutOf(ms, m, fee));
    assert (c.amountRaised, rate) in a'.claimTerms;
    forall r: nat | SameRate(a', r) && r <= BPS
      ensures a'.creatorPaid <= Released(ms', c.amountRaised - SliceUp(c.amountRaised, r))
      ensures a'.feePaid <= Released(ms', SliceUp(c.amountRaised, r))
    {
      assert r == rate;
      assert SameRate(a, r);
    }
    forall raised: int, r: nat | SameTerms(a', raised, r)
      ensures a'.creatorPaid == Released(ms', raised - SliceUp(raised, r))
      ensures a'.feePaid == Released(ms', SliceUp(raised, r))
    {
      assert raised == c.amountRaised && r == rate;
      assert SameTerms(a, raised, r);
    }
    assert m.id in ms'.claimed;
  }

  lemma NotCompleted(ms: Milestones)
    requires !AllClaimed(ms)
    ensures !Completed(ms)
  {
  }
}
