/**
 In which orders the milestones of a campaign can all be claimed while the amount raised and the fee rate stay as they
 are: a slice that truncates to nothing is refused.
 */
module MilestoneOrders {
  import opened Types
  import opened State
  import opened MilestonePayouts
  import opened Invariants
  import opened Slices
  import opened MilestoneProofs

  /** The part of `claim_milestone` that concerns the milestones alone, for the creator's total `afterFee`. */
  function ClaimNext(ms: Milestones, mid: nat, afterFee: int): Result<Milestones> {
    match Find(ms.list, mid)
    case None => Err(MilestoneNotFound)
    case Some(m) =>
      :- Need(m.verified, MilestoneNotVerified);
      :- Need(mid !in ms.claimed, MilestoneAlreadyClaimed);
      :- Need(0 < PayoutOf(ms, m, afterFee), NoFundsToWithdraw);
      Ok(After(ms, mid))
  }

  function ClaimInOrder(ms: Milestones, order: seq<nat>, afterFee: int): Result<Milestones> {
    if order == [] then Ok(ms)
    else
      var ms1 :- ClaimInOrder(ms, order[..|order| - 1], afterFee);
      ClaimNext(ms1, order[|order| - 1], afterFee)
  }

  /** What the creator gets in all at the present amount raised and fee rate. */
  function CreatorTotal(s: State, id: nat): int
    requires id in s.entries
  {
    var c := s.entries[id].campaign;
    c.amountRaised - SliceUp(c.amountRaised, FeeRate(s.config, c))
  }

  /** The guards of `claim_milestone` that do not concern the milestones. */
  predicate GuardsPass(s: State, id: nat) {
    && id in s.entries && !s.paused
    && var c := s.entries[id].campaign;
       && CanSign(c.creator) && !c.isCancelled && c.isVerified && !c.fundsWithdrawn
       && c.amountRaised != 0 && c.fundingGoal <= c.amountRaised
  }

  /** The checked operations of the claim all fit. */
  predicate ClaimFitsIn(s: State, id: nat, mid: nat)
    requires id in s.entries
  {
    var c, ms := s.entries[id].campaign, s.entries[id].milestones;
    var rate := FeeRate(s.config, c);
    var fee := SliceUp(c.amountRaised, rate);
    && FitsI128(c.amountRaised * rate) && FitsI128(c.amountRaised * rate + BPS_CEIL_OFFSET)
    && (Find(ms.list, mid).Some? && mid !in ms.claimed ==>
          var m := Find(ms.list, mid).value;
          && ClaimFits(ms, m, CreatorTotal(s, id), fee)
          && (0 < PayoutOf(ms, m, CreatorTotal(s, id)) ==>
                FitsI128(s.totalRaised - (FeePayoutOf(ms, m, fee) + PayoutOf(ms, m, CreatorTotal(s, id))))))
  }

  /** With the other guards passed and no overflow, the contract accepts a claim exactly when these do, and refuses it with their error. */
  lemma ClaimNextIsChecked(s: State, id: nat, mid: nat)
    requires GuardsPass(s, id) && ClaimFitsIn(s, id, mid)
    ensures match ClaimNext(s.entries[id].milestones, mid, CreatorTotal(s, id))
            case Ok(_) => CheckClaim(s, id, mid).Ok?
            case Err(x) => CheckClaim(s, id, mid) == Err(x)
  {
    hide PayoutOf, FeePayoutOf, ClaimFits, Find, SliceUp;
  }

  ghost predicate AllVerified(list: seq<Milestone>) { forall i | 0 <= i < |list| :: list[i].verified }

  /** Every milestone exactly once. */
  ghost predicate Orders(order: seq<nat>, list: seq<Milestone>) {
    && (forall i, j | 0 <= i < j < |order| :: order[i] != order[j])
    && (forall i | 0 <= i < |order| :: Find(list, order[i]).Some?)
    && (forall i | 0 <= i < |list| :: list[i].id in order)
  }

  function SliceOf(list: seq<Milestone>, mid: nat, afterFee: int): int {
    match Find(list, mid) case Some(m) => Slice(afterFee, m.payoutBps) case None => 0
  }

  lemma StillOpen(order: seq<nat>, n: nat)
    requires n < |order| && forall i, j | 0 <= i < j < |order| :: order[i] != order[j]
    ensures order[n] !in Members(order[..n])
    ensures n + 1 < |order| ==> order[|order| - 1] !in Members(order[..n]) && order[|order| - 1] != order[n]
  {
  }

  /** Short of the last, a claim pays its slice. */
  lemma PaysSlice(ms: Milestones, mid: nat, other: nat, afterFee: int)
    requires WellFormed(ms.list) && AllVerified(ms.list) && mid !in ms.claimed && other !in ms.claimed && other != mid
    requires Find(ms.list, mid).Some? && Find(ms.list, other).Some?
    ensures ClaimNext(ms, mid, afterFee) == if 0 < SliceOf(ms.list, mid, afterFee) then Ok(After(ms, mid)) else Err(NoFundsToWithdraw)
  {
    hide WellFormed;
    var k := FindFinds(ms.list, mid);
    var j := FindFinds(ms.list, other);
    LastIffOthersClaimed(ms, k);
    assert ms.list[j].id == other;
  }

  /** The last claim gets what the slices leave, which is more than nothing if there is anything to pay out. */
  lemma LastPaysRest(ms: Milestones, mid: nat, afterFee: int)
    requires WellFormed(ms.list) && AllVerified(ms.list) && mid !in ms.claimed && Find(ms.list, mid).Some? && 0 <= afterFee
    requires AllOthersClaimed(ms, mid)
    ensures ClaimNext(ms, mid, afterFee) == if 0 < afterFee then Ok(After(ms, mid)) else Err(NoFundsToWithdraw)
  {
    hide WellFormed, AllOthersClaimed, ClaimedSlices;
    var k := FindFinds(ms.list, mid);
    LastIffOthersClaimed(ms, k);
    LastLeaves(ms, k, afterFee);
  }

  lemma {:induction false} OrderProgress(ms: Milestones, order: seq<nat>, n: nat, afterFee: int)
    requires WellFormed(ms.list) && AllVerified(ms.list) && ms.claimed == {} && Orders(order, ms.list) && n < |order|
    ensures var done := ClaimInOrder(ms, order[..n], afterFee);
            && (done.Ok? <==> forall i | 0 <= i < n :: 0 < SliceOf(ms.list, order[i], afterFee))
            && (done.Ok? ==> done.value == Milestones(ms.list, Members(order[..n])))
    decreases n
  {
    hide WellFormed, AllVerified, ClaimNext, SliceOf, Find;
    if n == 0 {
      assert Members(order[..0]) == {};
    } else {
      OrderProgress(ms, order, n - 1, afterFee);
      assert order[..n][..n - 1] == order[..n - 1];
      StillOpen(order, n - 1);
      var ms1 := Milestones(ms.list, Members(order[..n - 1]));
      PaysSlice(ms1, order[n - 1], order[|order| - 1], afterFee);
      assert Members(order[..n]) == Members(order[..n - 1]) + {order[n - 1]};
    }
  }

  /**
   At one frozen total the milestones can be claimed in the given order if and only if there is something to pay out and
   every slice before the last claim is at least 1.
   */
  lemma FrozenOrderCompletesIff(ms: Milestones, order: seq<nat>, afterFee: int)
    requires WellFormed(ms.list) && AllVerified(ms.list) && ms.claimed == {} && Orders(order, ms.list)
    requires 0 <= afterFee && order != []
    ensures ClaimInOrder(ms, order, afterFee).Ok?
       <==> 0 < afterFee && forall i | 0 <= i < |order| - 1 :: 0 < SliceOf(ms.list, order[i], afterFee)
  {
    hide WellFormed, AllVerified, ClaimNext, SliceOf, Find, AllOthersClaimed;
    var n := |order| - 1;
    OrderProgress(ms, order, n, afterFee);
    StillOpen(order, n);
    LastLeft(ms, order);
    if ClaimInOrder(ms, order[..n], afterFee).Ok? {
      LastPaysRest(Milestones(ms.list, Members(order[..n])), order[n], afterFee);
    }
  }

  lemma LastLeft(ms: Milestones, order: seq<nat>)
    requires Orders(order, ms.list) && order != []
    ensures AllOthersClaimed(Milestones(ms.list, Members(order[..|order| - 1])), order[|order| - 1])
  {
  }
}
