/** The vesting reserve over runs: held back for the delay configured at the campaign's creation, then released once. */
module VestingRuns {
  import opened Types
  import opened State
  import opened Payouts
  import opened Invariants
  import opened Compose
  import opened ContributionProofs
  import opened Runs
  import opened Frames
  import opened Traces
  import opened FeeRuns
  import opened Rounding
  import EscrowTheorems
  import PayoutProofs
  import Solvency

  /** The same reserve, at most released since. */
  predicate Stays(r: Option<Reserve>, r': Option<Reserve>) {
    r.Some? ==> r'.Some? && r'.value.amount == r.value.amount && r'.value.releaseTime == r.value.releaseTime
                && (r.value.released ==> r'.value.released)
  }

  lemma ReserveNeedsWithdrawal(s: State, id: nat)
    requires Inv(s) && id in s.entries && s.entries[id].reserve.Some?
    ensures WithdrawFunds(s, id).Err? && s.entries[id].campaign.fundsWithdrawn && s.entries[id].campaign.creator != SELF
  {
    hide Inv, WithdrawFunds, SplitOf, Transfer, LedgerInv, PaidInv, RevenueInv, VotesInv, RefundInv, MilestoneInv;
    FromInv(s, id);
    if WithdrawFunds(s, id).Ok? {
      PayoutProofs.WithdrawShape(s, id);
    }
  }

  lemma CallsDirectly(s: State, id: nat)
    ensures Call(s, DoWithdrawFunds(id)) == WithdrawFunds(s, id)
    ensures Call(s, DoWithdrawReserve(id)) == WithdrawReserve(s, id)
  {
    hide CallPayout, CallVote, CallRegistry, CallSetting, WithdrawFunds, WithdrawReserve;
  }

  predicate Releases(s: State, op: Op, id: nat) { op == DoWithdrawReserve(id) && Call(s, op).Ok? }

  lemma StepStays(s: State, op: Op, id: nat)
    requires Inv(s) && IdsInv(s) && id in s.entries && s.entries[id].reserve.Some?
    ensures id in Next(s, op).entries
    ensures var r, r' := s.entries[id].reserve, Next(s, op).entries[id].reserve;
            Stays(r, r') && (r'.value.released <==> r.value.released || Releases(s, op, id))
  {
    hide Inv, IdsInv, Call, WithdrawFunds, WithdrawReserve;
    StepReserve(s, op, id);
    CallsDirectly(s, id);
    ReserveNeedsWithdrawal(s, id);
  }

  /** A reserve keeps its amount and release time for good, and is released when a successful call released it. */
  lemma {:induction false} ReserveStays(s: State, ops: seq<Op>, i: nat, id: nat)
    requires Init(s) && i <= |ops| && id in At(s, ops, i).entries && At(s, ops, i).entries[id].reserve.Some?
    ensures id in Run(s, ops).entries
    ensures var r, r' := At(s, ops, i).entries[id].reserve, Run(s, ops).entries[id].reserve;
            && Stays(r, r')
            && (r'.value.released <==> r.value.released || exists k | i <= k < |ops| :: Releases(At(s, ops, k), ops[k], id))
    decreases |ops|
  {
    hide Init, Inv, IdsInv, Run, Next, Call, Releases;
    if |ops| == i {
      assert ops[..i] == ops;
    } else {
      var front := ops[..|ops| - 1];
      assert front[..i] == ops[..i];
      ReserveStays(s, front, i, id);
      Reached(s, ops);
      StepStays(Run(s, front), ops[|front|], id);
      forall k | i <= k < |front|
        ensures At(s, ops, k) == At(s, front, k)
      {
        assert front[..k] == ops[..k];
      }
      assert At(s, ops, |front|) == Run(s, front);
    }
  }

  lemma ReleaseChecks(s: State, id: nat)
    ensures WithdrawReserve(s, id).Ok?
       <==> (&& id in s.entries && s.entries[id].reserve.Some?
             && var e, r := s.entries[id], s.entries[id].reserve.value;
                && !s.paused && !r.released && r.releaseTime <= s.now && e.campaign.fundsWithdrawn && e.campaign.creator != SELF
                && FitsI128(s.totalRaised - r.amount) && 0 <= r.amount <= Balance(s.bank, e.terms.token, SELF))
  {
    hide Credit, Balance;
  }

  /** What the withdrawal at call `i` set aside. */
  lemma SetAside(s: State, ops: seq<Op>, id: nat, c: nat, i: nat)
    requires Init(s) && CreatedAt(s, ops, id, c) && Succeeds(s, ops, i) && ops[i] == DoWithdrawFunds(id)
    ensures c < i && id in At(s, ops, i + 1).entries
    ensures var r, was := At(s, ops, i + 1).entries[id].reserve, At(s, ops, c).config;
            r.Some? ==> 0 < r.value.amount && !r.value.released
                        && r.value.releaseTime == At(s, ops, i).now + was.vestingDelayDays * SECONDS_PER_DAY
  {
    hide Init, Inv, Run, Next, Call, WithdrawFunds, PaysOut, CreatedAt;
    var t := At(s, ops, i);
    CallsDirectly(t, id);
    AtNext(s, ops, i);
    NextIs(t, ops[i]);
    CreatedFirst(s, ops, id, c, i);
    var front := ops[..i];
    var fee, reserve, rest := WithdrawalOnRuns(s, front, id, c, At(s, ops, i + 1));
    assert front[..c] == ops[..c];
    WithdrawnReserve(t, At(s, ops, i + 1), id, Rate(OverrideOf(s, front, id), t.config.platformFee), At(s, ops, c).config.vestingBps,
                     At(s, ops, c).config.vestingDelayDays, fee, reserve, rest);
  }

  lemma WithdrawnReserve(s: State, s': State, id: nat, rate: nat, vestingBps: nat, delayDays: nat, fee: int, reserve: int, rest: int)
    requires PaysOut(s, s', id, rate, vestingBps, delayDays, fee, reserve, rest)
    ensures id in s'.entries
    ensures s'.entries[id].reserve == if 0 < reserve then Some(Reserve(reserve, s.now + delayDays * SECONDS_PER_DAY, false)) else None
  {
  }

  /** A campaign is created before anything succeeds on it. */
  lemma CreatedFirst(s: State, ops: seq<Op>, id: nat, c: nat, i: nat)
    requires Init(s) && CreatedAt(s, ops, id, c) && Succeeds(s, ops, i) && About(ops[i], id)
    ensures c < i && CreatedAt(s, ops[..i], id, c) && c < |ops|
  {
    hide Init, Inv, Run, Next, Call;
    StepFinds(At(s, ops, i), ops[i], id);
    CreatedNew(s, ops, id, c);
    if i <= c {
      InitInv(s);
      RunEvolves(s, ops, i, c);
    }
    assert ops[..i][..c] == ops[..c];
  }

  /**
   Nobody gets the reserve before the delay configured when the campaign was created has passed since the withdrawal,
   whatever is configured or called in between.
   */
  lemma ReserveHeldBack(s: State, ops: seq<Op>, id: nat, c: nat, i: nat, j: nat)
    requires Init(s) && CreatedAt(s, ops, id, c) && Succeeds(s, ops, i) && ops[i] == DoWithdrawFunds(id)
    requires Succeeds(s, ops, j) && ops[j] == DoWithdrawReserve(id)
    ensures i < j
    ensures At(s, ops, i).now + At(s, ops, c).config.vestingDelayDays * SECONDS_PER_DAY <= At(s, ops, j).now
  {
    hide Init, Inv, Run, Next, Call, WithdrawReserve, CreatedAt;
    SetAside(s, ops, id, c, i);
    CallsDirectly(At(s, ops, j), id);
    ReleaseChecks(At(s, ops, j), id);
    WithdrawalFirst(s, ops, id, i, j);
    ReserveSame(s, ops, id, i, j);
  }

  /** The withdrawal comes before any release. */
  lemma WithdrawalFirst(s: State, ops: seq<Op>, id: nat, i: nat, j: nat)
    requires Init(s) && Succeeds(s, ops, i) && ops[i] == DoWithdrawFunds(id) && j < |ops| && j != i
    requires id in At(s, ops, j).entries && At(s, ops, j).entries[id].reserve.Some?
    ensures i < j
  {
    hide Init, Inv, Run, Next, Call, WithdrawFunds;
    if j < i {
      var front := ops[..i];
      assert front[..j] == ops[..j];
      ReserveStays(s, front, j, id);
      ReachableInv(s, front);
      CallsDirectly(At(s, ops, i), id);
      ReserveNeedsWithdrawal(At(s, ops, i), id);
    }
  }

  /** The reserve found at call `j` is the one the withdrawal at call `i` set aside. */
  lemma ReserveSame(s: State, ops: seq<Op>, id: nat, i: nat, j: nat)
    requires Init(s) && Succeeds(s, ops, i) && ops[i] == DoWithdrawFunds(id) && i < j <= |ops|
    requires id in At(s, ops, j).entries && id in At(s, ops, i + 1).entries
    ensures Stays(At(s, ops, i + 1).entries[id].reserve, At(s, ops, j).entries[id].reserve)
    ensures At(s, ops, i + 1).entries[id].reserve.None? ==> At(s, ops, j).entries[id].reserve.None?
  {
    hide Init, Inv, Run, Next, Call, WithdrawFunds;
    var front := ops[..j];
    assert front[..i] == ops[..i] && front[..i + 1] == ops[..i + 1];
    if At(s, ops, i + 1).entries[id].reserve.Some? {
      ReserveStays(s, front, i + 1, id);
    } else {
      NoneStays(s, front, i, id);
    }
  }

  lemma {:induction false} NoneStays(s: State, ops: seq<Op>, i: nat, id: nat)
    requires Init(s) && Succeeds(s, ops, i) && ops[i] == DoWithdrawFunds(id)
    requires id in At(s, ops, i + 1).entries && At(s, ops, i + 1).entries[id].reserve.None?
    ensures id in Run(s, ops).entries && Run(s, ops).entries[id].reserve.None?
    decreases |ops|
  {
    hide Init, Inv, IdsInv, Run, Next, Call, WithdrawFunds;
    var front := ops[..|ops| - 1];
    if |ops| == i + 1 {
      assert ops[..i + 1] == ops;
    } else {
      assert front[..i] == ops[..i] && front[..i + 1] == ops[..i + 1];
      NoneStays(s, front, i, id);
      Reached(s, ops);
      StepReserve(Run(s, front), ops[|front|], id);
      CallsDirectly(Run(s, front), id);
      WithdrawnOnce(s, front, i, id);
    }
  }

  lemma WithdrawnOnce(s: State, ops: seq<Op>, i: nat, id: nat)
    requires Init(s) && Succeeds(s, ops, i) && ops[i] == DoWithdrawFunds(id)
    ensures WithdrawFunds(Run(s, ops), id).Err?
  {
    hide Init, Inv, Run, Next, Call, WithdrawFunds;
    var t := At(s, ops, i);
    CallsDirectly(t, id);
    AtNext(s, ops, i);
    EscrowTheorems.WithdrawLeavesTrace(t, id);
    InitInv(s);
    RunEvolves(s, ops, i + 1, |ops|);
    assert ops[..|ops|] == ops;
    if WithdrawFunds(Run(s, ops), id).Ok? {
      PayoutProofs.WithdrawShape(Run(s, ops), id);
    }
  }

  /**
   With something set aside and not yet released, the creator gets it exactly from the moment the delay has passed,
   unless the contract is paused or the total's bookkeeping has no room.
   */
  lemma ReserveReleasedIff(s: State, ops: seq<Op>, id: nat, c: nat, i: nat)
    requires Init(s) && CreatedAt(s, ops, id, c) && Succeeds(s, ops, i) && ops[i] == DoWithdrawFunds(id)
    requires id in At(s, ops, i + 1).entries && At(s, ops, i + 1).entries[id].reserve.Some?
    requires forall k | i < k < |ops| && ops[k] == DoWithdrawReserve(id) :: !Succeeds(s, ops, k)
    requires id in Run(s, ops).entries && Solvency.CleanToken(Run(s, ops), Run(s, ops).entries[id].terms.token)
    ensures var t, amount := Run(s, ops), At(s, ops, i + 1).entries[id].reserve.value.amount;
            WithdrawReserve(t, id).Ok?
            <==> (&& At(s, ops, i).now + At(s, ops, c).config.vestingDelayDays * SECONDS_PER_DAY <= t.now
                  && !t.paused && FitsI128(t.totalRaised - amount))
  {
    hide Init, Inv, Run, Next, Call, WithdrawReserve, WithdrawFunds, CreatedAt, Solvency.CleanToken;
    var t := Run(s, ops);
    SetAside(s, ops, id, c, i);
    ReserveStays(s, ops, i + 1, id);
    forall k | i + 1 <= k < |ops|
      ensures !Releases(At(s, ops, k), ops[k], id)
    {
    }
    ReachableInv(s, ops);
    ReserveNeedsWithdrawal(t, id);
    ReleaseChecks(t, id);
    ReserveCovered(t, id);
  }

  lemma ReserveCovered(s: State, id: nat)
    requires Inv(s) && id in s.entries && Solvency.CleanToken(s, s.entries[id].terms.token)
    requires s.entries[id].reserve.Some? && !s.entries[id].reserve.value.released
    ensures s.entries[id].reserve.value.amount <= Balance(s.bank, s.entries[id].terms.token, SELF)
  {
    hide Inv, EscrowTheorems.Clean, HeldRevenue, LedgerInv, PaidInv, RevenueInv, VotesInv, RefundInv, MilestoneInv;
    FromInv(s, id);
    EscrowTheorems.BalanceCovers(s, id);
    assert EscrowTheorems.Clean(s.entries[id], AuditOf(s, id));
    EscrowTheorems.CleanIsSolvent(s, id);
    EscrowTheorems.NoReserve(s, id);
  }
}
