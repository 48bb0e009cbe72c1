/** Concrete runs in which the contract falls short of what one might expect of it. */
module Witnesses {
  import opened Types
  import opened State
  import opened Contributions
  import opened Payouts
  import opened MilestonePayouts
  import opened Governance
  import opened Registry
  import opened Invariants
  import opened Runs
  import opened Provenance
  import opened MilestoneOrders
  import opened MilestoneRuns
  import EscrowTheorems
  import RevenueTheorems
  import Solvency
  import Buckets

  const TOKEN: Address := 7
  const CREATOR: Address := 1
  const DONOR: Address := 2
  const ADMIN: Address := 9
  const NEW_ADMIN: Address := 8

  const CONFIG: Config := Config(ADMIN, TOKEN, 0, 0, 1, 1000, 0, 0, false, map[], 1, 1000, map[], 0, {})
  const PARAMS: CreateParams := CreateParams(CREATOR, "d", 10, 1, Learner, false, 0, 0)

  /** A fresh contract; the donor owns 10 tokens. */
  const START: State := State(0, 0, false, CONFIG, map[], map[], Counters(0, 0, 0, 0), 0, map[(TOKEN, DONOR) := 10],
                              Index(map[], map[], map[], map[], map[]))

  function OpenCampaign(verified: bool, raised: int, effective: int): Campaign {
    Campaign(1, CREATOR, CREATOR, None, "d", 10, SECONDS_PER_DAY, raised, true, false, false, verified, Learner, false, 0, 0,
             None, false, effective)
  }

  const NO_LEDGER: Ledger := Ledger(map[], map[], 0, map[], None, 0, 0)

  function EntryWith(c: Campaign, l: Ledger, ms: Milestones): Entry {
    Entry(c, Terms(TOKEN, 0, 0, 0), l, ms, None, Revenue(0, map[], 0, 0, 0), NO_VOTES, [])
  }

  function Gave(amount: int): Ledger { Ledger(map[DONOR := amount], map[DONOR := amount], 1, map[], Some(ADMIN), 0, 0) }

  /** Everything about a one-campaign state but its counters and indexes. */
  predicate Looks(s: State, now: nat, e: Entry, a: Audit, total: int, held: int) {
    && s.now == now && s.ledgerSeq == 0 && !s.paused && s.config == CONFIG
    && s.entries == map[1 := e] && s.audits == map[1 := a]
    && s.totalRaised == total && Balance(s.bank, TOKEN, SELF) == held
  }

  lemma StartInit()
    ensures Init(START)
  {
  }

  lemma Created(s: State)
    requires s == START
    ensures Looks(Next(s, DoCreate(PARAMS, None)), 0, EntryWith(OpenCampaign(false, 0, 0), NO_LEDGER, Milestones([], {})), NO_AUDIT, 0, 0)
    ensures Next(s, DoCreate(PARAMS, None)).bank == s.bank
  {
    hide Filed, Categorized, CallEscrow, CallPayout, CallVote, CallSetting;
    var r := CreateCampaign(s, PARAMS, None);
    assert CheckParams(CONFIG, PARAMS).Pass?;
    assert CalculateDeadline(0, 1) == Ok(SECONDS_PER_DAY);
    assert r.Ok?;
    assert r.value.entries == map[1 := EntryWith(OpenCampaign(false, 0, 0), NO_LEDGER, Milestones([], {}))];
    assert r.value.audits == map[1 := NO_AUDIT];
  }

  lemma MadeVerified(s: State)
    requires Looks(s, 0, EntryWith(OpenCampaign(false, 0, 0), NO_LEDGER, Milestones([], {})), NO_AUDIT, 0, 0)
    ensures Looks(Next(s, DoVerify(1)), 0, EntryWith(OpenCampaign(true, 0, 0), NO_LEDGER, Milestones([], {})), NO_AUDIT, 0, 0)
    ensures Next(s, DoVerify(1)).bank == s.bank
  {
    hide CallEscrow, CallPayout, CallRegistry, CallSetting;
    var r := VerifyCampaign(s, 1);
    assert r.Ok?;
    assert r.value.entries == map[1 := EntryWith(OpenCampaign(true, 0, 0), NO_LEDGER, Milestones([], {}))];
    assert r.value.audits == map[1 := NO_AUDIT];
  }

  lemma Given(s: State, amount: int)
    requires Looks(s, 0, EntryWith(OpenCampaign(true, 0, 0), NO_LEDGER, Milestones([], {})), NO_AUDIT, 0, 0)
    requires s.bank == START.bank && 0 < amount <= 10
    ensures Looks(Next(s, DoContribute(1, DONOR, amount)), 0,
                  EntryWith(OpenCampaign(true, amount, amount), Gave(amount), Milestones([], {})), NO_AUDIT, amount, amount)
    ensures Balance(Next(s, DoContribute(1, DONOR, amount)).bank, TOKEN, NEW_ADMIN) == 0
  {
    hide CallPayout, CallVote, CallRegistry, CallSetting;
    var e := s.entries[1];
    assert BurstGuard(e.campaign, e.ledger, 0, amount) == Ok((0, 0));
    var r := Contribute(s, 1, DONOR, amount);
    assert r.Ok?;
    assert r.value.entries[1].ledger == Gave(amount);
    assert r.value.entries == map[1 := EntryWith(OpenCampaign(true, amount, amount), Gave(amount), Milestones([], {}))];
    assert r.value.audits == map[1 := NO_AUDIT];
  }

  lemma RunMore(s: State, ops: seq<Op>, op: Op)
    ensures Run(s, ops + [op]) == Next(Run(s, ops), op)
  {
    hide Next;
    assert (ops + [op])[..|ops|] == ops;
  }

  function Funding(amount: int): seq<Op> { [DoCreate(PARAMS, None)] + [DoVerify(1)] + [DoContribute(1, DONOR, amount)] }

  lemma Funded(amount: int)
    requires 0 < amount <= 10
    ensures Looks(Run(START, Funding(amount)), 0,
                  EntryWith(OpenCampaign(true, amount, amount), Gave(amount), Milestones([], {})), NO_AUDIT, amount, amount)
    ensures Balance(Run(START, Funding(amount)).bank, TOKEN, NEW_ADMIN) == 0
  {
    hide Next, Looks, Run, Balance;
    RunNone(START);
    RunMore(START, [], DoCreate(PARAMS, None));
    assert [] + [DoCreate(PARAMS, None)] == [DoCreate(PARAMS, None)];
    RunMore(START, [DoCreate(PARAMS, None)], DoVerify(1));
    RunMore(START, [DoCreate(PARAMS, None)] + [DoVerify(1)], DoContribute(1, DONOR, amount));
    Created(START);
    MadeVerified(Next(START, DoCreate(PARAMS, None)));
    Given(Next(Next(START, DoCreate(PARAMS, None)), DoVerify(1)), amount);
  }

  lemma RunNone(s: State)
    ensures Run(s, []) == s
  {
  }

  // ---- A refund, then the creator's cancellation ---------------------------------------------

  const REFUND_THEN_CANCEL: seq<Op> := Funding(5) + [Tick(SECONDS_PER_DAY + 1, 0)] + [DoClaimRefund(1, DONOR)] + [DoCancel(1)]

  lemma RefundStep(s: State)
    requires Looks(s, SECONDS_PER_DAY + 1, EntryWith(OpenCampaign(true, 5, 5), Gave(5), Milestones([], {})), NO_AUDIT, 5, 5)
    ensures Looks(Next(s, DoClaimRefund(1, DONOR)), SECONDS_PER_DAY + 1,
                  EntryWith(OpenCampaign(true, 5, 0), Gave(5).(contributions := map[], contributorCount := 0), Milestones([], {})),
                  NO_AUDIT.(refundedBeforeCancel := 5), 0, 0)
  {
    hide CallPayout, CallVote, CallRegistry, CallSetting;
    var r := ClaimRefund(s, 1, DONOR);
    assert r.Ok?;
    assert Gave(5).contributions - {DONOR} == map[];
    assert r.value.entries[1].ledger == Gave(5).(contributions := map[], contributorCount := 0);
    var empty := Gave(5).(contributions := map[], contributorCount := 0);
    assert r.value.entries == map[1 := EntryWith(OpenCampaign(true, 5, 0), empty, Milestones([], {}))];
    assert r.value.audits == map[1 := NO_AUDIT.(refundedBeforeCancel := 5)];
  }

  lemma CancelStep(s: State)
    requires Looks(s, SECONDS_PER_DAY + 1,
                   EntryWith(OpenCampaign(true, 5, 0), Gave(5).(contributions := map[], contributorCount := 0), Milestones([], {})),
                   NO_AUDIT.(refundedBeforeCancel := 5), 0, 0)
    ensures Next(s, DoCancel(1)).totalRaised == -5
  {
    hide CallPayout, CallVote, CallRegistry, CallSetting;
    assert CancelCampaign(s, 1).Ok?;
  }

  lemma TickStep(s: State, e: Entry, a: Audit, total: int, held: int)
    requires Looks(s, 0, e, a, total, held)
    ensures Looks(Next(s, Tick(SECONDS_PER_DAY + 1, 0)), SECONDS_PER_DAY + 1, e, a, total, held)
  {
    hide CallEscrow, CallPayout, CallVote, CallRegistry;
  }

  /** The creator of a failed campaign cancels it after a refund of 5: the platform's total ends at -5. */
  lemma RefundThenCancelUndercounts()
    ensures Init(START) && Run(START, REFUND_THEN_CANCEL).totalRaised == -5
  {
    hide Next, Looks, Run, Funding, Init;
    StartInit();
    Funded(5);
    var e := EntryWith(OpenCampaign(true, 5, 5), Gave(5), Milestones([], {}));
    var ops1 := Funding(5) + [Tick(SECONDS_PER_DAY + 1, 0)];
    var ops2 := ops1 + [DoClaimRefund(1, DONOR)];
    RunMore(START, Funding(5), Tick(SECONDS_PER_DAY + 1, 0));
    RunMore(START, ops1, DoClaimRefund(1, DONOR));
    RunMore(START, ops2, DoCancel(1));
    TickStep(Run(START, Funding(5)), e, NO_AUDIT, 5, 5);
    RefundStep(Run(START, ops1));
    CancelStep(Run(START, ops2));
  }

  // ---- A milestone payout, then the admin's cancellation --------------------------------------

  function Halves(verified: bool): seq<Milestone> { [Milestone(1, "a", 5000, verified), Milestone(2, "b", 5000, false)] }

  const PAYOUT_THEN_CANCEL: seq<Op> :=
    Funding(10) + [DoSetMilestones(1, Halves(false))] + [DoVerifyMilestone(ADMIN, 1, 1)] + [DoClaimMilestone(1, 1)]
    + [DoAdminCancel(ADMIN, 1, "fraud")]

  lemma HalvesFormed()
    ensures WellFormed(Halves(false)) && Normalized(Halves(false)) == Halves(false)
    ensures MarkVerified(Halves(false), 1) == Halves(true)
  {
    var list := Halves(false);
    assert list[..1] == [Milestone(1, "a", 5000, false)];
    assert list[..1][..0] == [];
    assert TotalBps(list[..1]) == 5000;
  }

  lemma SetStep(s: State)
    requires Looks(s, 0, EntryWith(OpenCampaign(true, 10, 10), Gave(10), Milestones([], {})), NO_AUDIT, 10, 10)
    ensures Looks(Next(s, DoSetMilestones(1, Halves(false))), 0,
                  EntryWith(OpenCampaign(true, 10, 10), Gave(10), Milestones(Halves(false), {})), NO_AUDIT, 10, 10)
  {
    hide CallEscrow, CallVote, CallRegistry, CallSetting;
    HalvesFormed();
    hide WellFormed, Normalized;
    var r := SetMilestones(s, 1, Halves(false));
    assert r.Ok?;
    assert r.value.entries == map[1 := EntryWith(OpenCampaign(true, 10, 10), Gave(10), Milestones(Halves(false), {}))];
    assert r.value.audits == map[1 := NO_AUDIT];
  }

  lemma VerifyStep(s: State)
    requires Looks(s, 0, EntryWith(OpenCampaign(true, 10, 10), Gave(10), Milestones(Halves(false), {})), NO_AUDIT, 10, 10)
    ensures Looks(Next(s, DoVerifyMilestone(ADMIN, 1, 1)), 0,
                  EntryWith(OpenCampaign(true, 10, 10), Gave(10), Milestones(Halves(true), {})), NO_AUDIT, 10, 10)
  {
    hide CallEscrow, CallVote, CallRegistry, CallSetting;
    HalvesFormed();
    hide WellFormed, MarkVerified;
    assert Halves(false)[0].id == 1;
    var r := VerifyMilestone(s, ADMIN, 1, 1);
    assert r.Ok?;
    assert r.value.entries == map[1 := EntryWith(OpenCampaign(true, 10, 10), Gave(10), Milestones(Halves(true), {}))];
    assert r.value.audits == map[1 := NO_AUDIT];
  }

  lemma HalfClaim(ms: Milestones)
    requires ms == Milestones(Halves(true), {})
    ensures Find(ms.list, 1) == Some(Milestone(1, "a", 5000, true))
    ensures !AllOthersClaimed(ms, 1)
    ensures PayoutOf(ms, Milestone(1, "a", 5000, true), 10) == 5
    ensures FeePayoutOf(ms, Milestone(1, "a", 5000, true), 0) == 0
    ensures MilestonePayouts.ClaimFits(ms, Milestone(1, "a", 5000, true), 10, 0)
  {
    var list := ms.list;
    assert list[1].id == 2 && list[1].id !in ms.claimed;
    assert list[..1] == [list[0]] && list[..1][..0] == [];
    assert ClaimedBps(list[..1], {}) == 0;
    assert ClaimedBps(list, {}) == 0;
  }

  lemma ClaimStep(s: State)
    requires Looks(s, 0, EntryWith(OpenCampaign(true, 10, 10), Gave(10), Milestones(Halves(true), {})), NO_AUDIT, 10, 10)
    ensures Looks(Next(s, DoClaimMilestone(1, 1)), 0,
                  EntryWith(OpenCampaign(true, 10, 10), Gave(10), Milestones(Halves(true), {1})),
                  ClaimAudit(NO_AUDIT, 10, 0, 5, 0), 5, 5)
  {
    hide CallEscrow, CallVote, CallRegistry, CallSetting;
    HalfClaim(s.entries[1].milestones);
    hide PayoutOf, FeePayoutOf, MilestonePayouts.ClaimFits, AllOthersClaimed, Find;
    assert SliceUp(10, 0) == 0;
    assert s.entries[1].milestones.claimed + {1} == {1};
    var r := ClaimMilestone(s, 1, 1);
    assert r.Ok?;
    assert r.value.entries == map[1 := EntryWith(OpenCampaign(true, 10, 10), Gave(10), Milestones(Halves(true), {1}))];
    assert r.value.audits == map[1 := ClaimAudit(NO_AUDIT, 10, 0, 5, 0)];
  }

  lemma AdminCancelStep(s: State)
    requires Looks(s, 0, EntryWith(OpenCampaign(true, 10, 10), Gave(10), Milestones(Halves(true), {1})),
                   ClaimAudit(NO_AUDIT, 10, 0, 5, 0), 5, 5)
    ensures var s' := Next(s, DoAdminCancel(ADMIN, 1, "fraud"));
            && 1 in s'.entries && Refundable(s'.now, s'.entries[1].campaign)
            && Get(s'.entries[1].ledger.contributions, DONOR) == 10
            && ClaimRefund(s', 1, DONOR) == Err(TransferFailed)
  {
    hide CallPayout, CallVote, CallRegistry, CallSetting;
    assert AdminCancelCampaign(s, ADMIN, 1, "fraud").Ok?;
  }

  /** The admin cancels after one of two milestones was paid: the donor of all 10 is due a refund the contract cannot pay. */
  lemma PayoutThenCancelStrandsRefund()
    ensures Init(START)
    ensures var s := Run(START, PAYOUT_THEN_CANCEL);
            && 1 in s.entries && Refundable(s.now, s.entries[1].campaign)
            && Get(s.entries[1].ledger.contributions, DONOR) == 10
            && ClaimRefund(s, 1, DONOR) == Err(TransferFailed)
  {
    hide Next, Looks, Run, Funding, Init, ClaimRefund, Refundable;
    StartInit();
    Funded(10);
    var ops1 := Funding(10) + [DoSetMilestones(1, Halves(false))];
    var ops2 := ops1 + [DoVerifyMilestone(ADMIN, 1, 1)];
    var ops3 := ops2 + [DoClaimMilestone(1, 1)];
    RunMore(START, Funding(10), DoSetMilestones(1, Halves(false)));
    RunMore(START, ops1, DoVerifyMilestone(ADMIN, 1, 1));
    RunMore(START, ops2, DoClaimMilestone(1, 1));
    RunMore(START, ops3, DoAdminCancel(ADMIN, 1, "fraud"));
    SetStep(Run(START, Funding(10)));
    VerifyStep(Run(START, ops1));
    ClaimStep(Run(START, ops2));
    AdminCancelStep(Run(START, ops3));
  }

  // ---- Two slices that truncate to nothing ----------------------------------------------------

  /** Milestones of 4%, 4% and 92%, the first `n` of them verified. */
  function Uneven(n: nat): seq<Milestone> {
    [Milestone(1, "a", 400, 1 <= n), Milestone(2, "b", 400, 2 <= n), Milestone(3, "c", 9200, 3 <= n)]
  }

  const ALL_VERIFIED: seq<Op> :=
    Funding(10) + [DoSetMilestones(1, Uneven(0))] + [DoVerifyMilestone(ADMIN, 1, 1)] + [DoVerifyMilestone(ADMIN, 1, 2)]
    + [DoVerifyMilestone(ADMIN, 1, 3)]

  const EMPTY_SLICES: seq<Op> := ALL_VERIFIED + [DoClaimMilestone(1, 3)]

  lemma UnevenFormed()
    ensures WellFormed(Uneven(0)) && Normalized(Uneven(0)) == Uneven(0)
  {
    var list := Uneven(0);
    assert list[..2] == [list[0], list[1]] && list[..2][..1] == [list[0]] && list[..2][..1][..0] == [];
    assert TotalBps(list[..2][..1]) == 400;
    assert TotalBps(list[..2]) == 800;
  }

  lemma SetUnevenStep(s: State)
    requires Looks(s, 0, EntryWith(OpenCampaign(true, 10, 10), Gave(10), Milestones([], {})), NO_AUDIT, 10, 10)
    ensures Looks(Next(s, DoSetMilestones(1, Uneven(0))), 0,
                  EntryWith(OpenCampaign(true, 10, 10), Gave(10), Milestones(Uneven(0), {})), NO_AUDIT, 10, 10)
  {
    hide CallEscrow, CallVote, CallRegistry, CallSetting;
    UnevenFormed();
    hide WellFormed, Normalized;
    var r := SetMilestones(s, 1, Uneven(0));
    assert r.Ok?;
    assert r.value.entries == map[1 := EntryWith(OpenCampaign(true, 10, 10), Gave(10), Milestones(Uneven(0), {}))];
    assert r.value.audits == map[1 := NO_AUDIT];
  }

  lemma UnevenMarked(n: nat)
    requires n < 3
    ensures MarkVerified(Uneven(n), n + 1) == Uneven(n + 1)
    ensures Uneven(n)[n].id == n + 1
  {
  }

  lemma VerifyUnevenStep(s: State, n: nat)
    requires n < 3
    requires Looks(s, 0, EntryWith(OpenCampaign(true, 10, 10), Gave(10), Milestones(Uneven(n), {})), NO_AUDIT, 10, 10)
    ensures Looks(Next(s, DoVerifyMilestone(ADMIN, 1, n + 1)), 0,
                  EntryWith(OpenCampaign(true, 10, 10), Gave(10), Milestones(Uneven(n + 1), {})), NO_AUDIT, 10, 10)
  {
    hide CallEscrow, CallVote, CallRegistry, CallSetting;
    UnevenMarked(n);
    hide MarkVerified;
    var r := VerifyMilestone(s, ADMIN, 1, n + 1);
    assert r.Ok?;
    assert r.value.entries == map[1 := EntryWith(OpenCampaign(true, 10, 10), Gave(10), Milestones(Uneven(n + 1), {}))];
    assert r.value.audits == map[1 := NO_AUDIT];
  }

  /** What the claims of the three milestones would pay of the 10 raised. */
  lemma UnevenPays(ms: Milestones, mid: nat)
    requires ms.list == Uneven(3)
    requires (mid == 3 && ms.claimed == {}) || (mid in {1, 2} && ms.claimed == {3})
    ensures Find(ms.list, mid) == Some(Uneven(3)[mid - 1]) && !AllOthersClaimed(ms, mid)
    ensures PayoutOf(ms, Uneven(3)[mid - 1], 10) == if mid == 3 then 9 else 0
    ensures FeePayoutOf(ms, Uneven(3)[mid - 1], 0) == 0
    ensures MilestonePayouts.ClaimFits(ms, Uneven(3)[mid - 1], 10, 0)
  {
    var list := ms.list;
    UnevenSums(ms.claimed);
    hide ClaimedBps, ClaimedSlices;
    assert list[0].id == 1 && list[1].id == 2;
    assert list[1..][0] == list[1] && list[1..][1..][0] == list[2];
  }

  lemma UnevenSums(claimed: set<nat>)
    requires claimed == {} || claimed == {3}
    ensures ClaimedBps(Uneven(3), claimed) == if claimed == {} then 0 else 9200
  {
    var list := Uneven(3);
    assert list[..2] == [list[0], list[1]] && list[..2][..1] == [list[0]] && list[..2][..1][..0] == [];
    assert ClaimedBps(list[..2][..1], claimed) == 0;
    assert ClaimedBps(list[..2], claimed) == 0;
  }

  lemma LargeClaimStep(s: State)
    requires Looks(s, 0, EntryWith(OpenCampaign(true, 10, 10), Gave(10), Milestones(Uneven(3), {})), NO_AUDIT, 10, 10)
    ensures Looks(Next(s, DoClaimMilestone(1, 3)), 0,
                  EntryWith(OpenCampaign(true, 10, 10), Gave(10), Milestones(Uneven(3), {3})), ClaimAudit(NO_AUDIT, 10, 0, 9, 0), 1, 1)
  {
    hide CallEscrow, CallVote, CallRegistry, CallSetting;
    UnevenPays(s.entries[1].milestones, 3);
    hide PayoutOf, FeePayoutOf, MilestonePayouts.ClaimFits, AllOthersClaimed, Find;
    assert SliceUp(10, 0) == 0;
    assert s.entries[1].milestones.claimed + {3} == {3};
    var r := ClaimMilestone(s, 1, 3);
    assert r.Ok?;
    assert r.value.entries == map[1 := EntryWith(OpenCampaign(true, 10, 10), Gave(10), Milestones(Uneven(3), {3}))];
    assert r.value.audits == map[1 := ClaimAudit(NO_AUDIT, 10, 0, 9, 0)];
  }

  lemma SmallClaimRefused(s: State, mid: nat)
    requires mid in {1, 2}
    requires Looks(s, 0, EntryWith(OpenCampaign(true, 10, 10), Gave(10), Milestones(Uneven(3), {3})), ClaimAudit(NO_AUDIT, 10, 0, 9, 0), 1, 1)
    ensures ClaimMilestone(s, 1, mid) == Err(NoFundsToWithdraw)
  {
    UnevenPays(s.entries[1].milestones, mid);
    hide PayoutOf, FeePayoutOf, MilestonePayouts.ClaimFits, AllOthersClaimed, Find;
    assert SliceUp(10, 0) == 0;
  }

  lemma UnevenVerified()
    ensures Looks(Run(START, ALL_VERIFIED), 0,
                  EntryWith(OpenCampaign(true, 10, 10), Gave(10), Milestones(Uneven(3), {})), NO_AUDIT, 10, 10)
  {
    hide Next, Looks, Run, Funding;
    Funded(10);
    var ops1 := Funding(10) + [DoSetMilestones(1, Uneven(0))];
    var ops2 := ops1 + [DoVerifyMilestone(ADMIN, 1, 1)];
    var ops3 := ops2 + [DoVerifyMilestone(ADMIN, 1, 2)];
    RunMore(START, Funding(10), DoSetMilestones(1, Uneven(0)));
    RunMore(START, ops1, DoVerifyMilestone(ADMIN, 1, 1));
    RunMore(START, ops2, DoVerifyMilestone(ADMIN, 1, 2));
    RunMore(START, ops3, DoVerifyMilestone(ADMIN, 1, 3));
    SetUnevenStep(Run(START, Funding(10)));
    VerifyUnevenStep(Run(START, ops1), 0);
    VerifyUnevenStep(Run(START, ops2), 1);
    VerifyUnevenStep(Run(START, ops3), 2);
  }

  /** Of 10 raised, shares of 4%, 4% and 92%: the third pays 9, then neither of the other two can be claimed. */
  lemma EmptySlicesRefused()
    ensures Init(START)
    ensures var s := Run(START, EMPTY_SLICES);
            && 1 in s.entries && s.entries[1].milestones == Milestones(Uneven(3), {3})
            && ClaimMilestone(s, 1, 1) == Err(NoFundsToWithdraw) && ClaimMilestone(s, 1, 2) == Err(NoFundsToWithdraw)
  {
    hide Next, Run, Init, ClaimMilestone;
    StartInit();
    UnevenVerified();
    RunMore(START, ALL_VERIFIED, DoClaimMilestone(1, 3));
    LargeClaimStep(Run(START, ALL_VERIFIED));
    SmallClaimRefused(Run(START, EMPTY_SLICES), 1);
    SmallClaimRefused(Run(START, EMPTY_SLICES), 2);
  }

  lemma UnevenOrders()
    ensures Orders([3, 1, 2], Uneven(3)) && AllVerified(Uneven(3))
  {
    var list := Uneven(3);
    assert list[1..][0] == list[1] && list[1..][1..][0] == list[2];
    assert [3, 1, 2][1] == 1 && [3, 1, 2][2] == 2;
  }

  lemma UnevenClean(s: State)
    requires Looks(s, 0, EntryWith(OpenCampaign(true, 10, 10), Gave(10), Milestones(Uneven(3), {})), NO_AUDIT, 10, 10)
    ensures Solvency.CleanToken(s, TOKEN) && 1 in s.entries && s.entries[1].terms.token == TOKEN
    ensures GuardsPass(s, 1) && RaisedFits(s, 1)
  {
    hide RevenueTheorems.Excess, RevenueTheorems.Dust;
  }

  /** That campaign is ready for its claims before the first one: the run theorems apply to it. */
  lemma UnevenReady()
    ensures ReadyToClaim(Run(START, ALL_VERIFIED), 1, [3, 1, 2])
  {
    hide Run, Init, Inv, Solvency.CleanToken, GuardsPass, RaisedFits, Orders, AllVerified;
    StartInit();
    ReachableInv(START, ALL_VERIFIED);
    UnevenVerified();
    UnevenOrders();
    UnevenClean(Run(START, ALL_VERIFIED));
  }

  // ---- A vote on one text, a badge on another -------------------------------------------------

  const EDIT_UNDER_VOTES: seq<Op> :=
    [DoCreate(PARAMS, None)] + [DoCastVote(1, DONOR, true)] + [DoUpdateDescription(1, "new")] + [DoVerifyWithVotes(1)]

  const ONE_VOTE: Votes := Votes(1, 0, 1, 0, {DONOR})

  const VOTED: Audit := NO_AUDIT.(ballots := map[DONOR := true])

  function Pitched(text: string, votes: Votes): Entry {
    EntryWith(OpenCampaign(false, 0, 0).(description := text), NO_LEDGER, Milestones([], {})).(votes := votes)
  }

  lemma VoteStep(s: State)
    requires Looks(s, 0, Pitched("d", NO_VOTES), NO_AUDIT, 0, 0) && s.bank == START.bank
    ensures Call(s, DoCastVote(1, DONOR, true)).Ok?
    ensures Looks(Next(s, DoCastVote(1, DONOR, true)), 0, Pitched("d", ONE_VOTE), VOTED, 0, 0)
  {
    hide CallEscrow, CallPayout, CallRegistry, CallSetting;
    assert {} + {DONOR} == {DONOR};
    assert Counted(NO_VOTES, DONOR, true) == ONE_VOTE;
    var r := CastVote(s, 1, DONOR, true);
    assert r.Ok?;
    assert r.value.entries == map[1 := Pitched("d", ONE_VOTE)];
    assert r.value.audits == map[1 := VOTED];
  }

  lemma EditStep(s: State)
    requires Looks(s, 0, Pitched("d", ONE_VOTE), VOTED, 0, 0)
    ensures Looks(Next(s, DoUpdateDescription(1, "new")), 0, Pitched("new", ONE_VOTE), VOTED, 0, 0)
  {
    hide CallEscrow, CallPayout, CallRegistry, CallSetting;
    var r := UpdateDescription(s, 1, "new");
    assert r.Ok?;
    assert r.value.entries == map[1 := Pitched("new", ONE_VOTE)];
    assert r.value.audits == map[1 := VOTED];
  }

  lemma CommunityStep(s: State)
    requires Looks(s, 0, Pitched("new", ONE_VOTE), VOTED, 0, 0)
    ensures var s' := Next(s, DoVerifyWithVotes(1));
            1 in s'.entries && s'.entries[1].campaign.isVerified && s'.entries[1].campaign.description == "new"
  {
    hide CallEscrow, CallPayout, CallRegistry, CallSetting;
    assert ApprovalBps(ONE_VOTE) == BPS;
    assert VerifyWithVotes(s, 1).Ok?;
  }

  /** The one vote is cast on "d", the creator rewrites that to "new", and the vote verifies "new". */
  lemma OldVoteVerifiesNewText()
    ensures Init(START)
    ensures VotesAt(START, EDIT_UNDER_VOTES, 1, DONOR, 1) && TextAt(START, EDIT_UNDER_VOTES, 1, 1) == Some("d")
    ensures var s := Run(START, EDIT_UNDER_VOTES);
            1 in s.entries && s.entries[1].campaign.isVerified && s.entries[1].campaign.description == "new"
  {
    hide Next, Run, Init, Call, Looks;
    StartInit();
    var ops1 := [DoCreate(PARAMS, None)];
    var ops2 := ops1 + [DoCastVote(1, DONOR, true)];
    var ops3 := ops2 + [DoUpdateDescription(1, "new")];
    RunNone(START);
    RunMore(START, [], DoCreate(PARAMS, None));
    assert [] + [DoCreate(PARAMS, None)] == ops1;
    RunMore(START, ops1, DoCastVote(1, DONOR, true));
    RunMore(START, ops2, DoUpdateDescription(1, "new"));
    RunMore(START, ops3, DoVerifyWithVotes(1));
    Created(START);
    VoteStep(Run(START, ops1));
    EditStep(Run(START, ops2));
    CommunityStep(Run(START, ops3));
    assert EDIT_UNDER_VOTES[..1] == ops1;
    TextIsD(Run(START, ops1));
  }

  lemma TextIsD(s: State)
    requires Looks(s, 0, Pitched("d", NO_VOTES), NO_AUDIT, 0, 0)
    ensures 1 in s.entries && s.entries[1].campaign.description == "d"
  {
  }

  // ---- A milestone's fee after a change of admin ----------------------------------------------

  const HANDED_OVER: Config := CONFIG.(admin := NEW_ADMIN, platformFee := 1000)

  function Whole(verified: bool): seq<Milestone> { [Milestone(1, "a", 10000, verified)] }

  const FEE_TO_NEW_ADMIN: seq<Op> :=
    Funding(10) + [DoSetMilestones(1, Whole(false))] + [DoVerifyMilestone(ADMIN, 1, 1)] + [Configure(HANDED_OVER)]
    + [DoClaimMilestone(1, 1)]

  function WithWhole(verified: bool): Entry { EntryWith(OpenCampaign(true, 10, 10), Gave(10), Milestones(Whole(verified), {})) }

  lemma SetWholeStep(s: State)
    requires Looks(s, 0, EntryWith(OpenCampaign(true, 10, 10), Gave(10), Milestones([], {})), NO_AUDIT, 10, 10)
    ensures Looks(Next(s, DoSetMilestones(1, Whole(false))), 0, WithWhole(false), NO_AUDIT, 10, 10)
    ensures Next(s, DoSetMilestones(1, Whole(false))).bank == s.bank
  {
    hide CallEscrow, CallVote, CallRegistry, CallSetting;
    assert Whole(false)[..0] == [];
    assert WellFormed(Whole(false)) && Normalized(Whole(false)) == Whole(false);
    hide WellFormed, Normalized;
    var r := SetMilestones(s, 1, Whole(false));
    assert r.Ok?;
    assert r.value.entries == map[1 := WithWhole(false)];
    assert r.value.audits == map[1 := NO_AUDIT];
  }

  lemma VerifyWholeStep(s: State)
    requires Looks(s, 0, WithWhole(false), NO_AUDIT, 10, 10)
    ensures Looks(Next(s, DoVerifyMilestone(ADMIN, 1, 1)), 0, WithWhole(true), NO_AUDIT, 10, 10)
    ensures Next(s, DoVerifyMilestone(ADMIN, 1, 1)).bank == s.bank
  {
    hide CallEscrow, CallVote, CallRegistry, CallSetting;
    assert MarkVerified(Whole(false), 1) == Whole(true);
    hide MarkVerified;
    assert Whole(false)[0].id == 1;
    var r := VerifyMilestone(s, ADMIN, 1, 1);
    assert r.Ok?;
    assert r.value.entries == map[1 := WithWhole(true)];
    assert r.value.audits == map[1 := NO_AUDIT];
  }

  lemma WholeClaim(ms: Milestones)
    requires ms == Milestones(Whole(true), {})
    ensures Find(ms.list, 1) == Some(Whole(true)[0])
    ensures PayoutOf(ms, Whole(true)[0], 9) == 9 && FeePayoutOf(ms, Whole(true)[0], 1) == 1
    ensures MilestonePayouts.ClaimFits(ms, Whole(true)[0], 9, 1)
  {
    assert ms.list[..0] == [];
    assert ClaimedBps(ms.list, {}) == 0;
  }

  lemma ConfigureStep(s: State)
    requires Looks(s, 0, WithWhole(true), NO_AUDIT, 10, 10)
    ensures Next(s, Configure(HANDED_OVER)) == s.(config := HANDED_OVER)
    ensures Looks(Next(s, Configure(HANDED_OVER)).(config := CONFIG), 0, WithWhole(true), NO_AUDIT, 10, 10)
  {
    hide CallEscrow, CallPayout, CallVote, CallRegistry;
    assert ValidConfig(HANDED_OVER);
  }

  lemma WholeChecked(s: State)
    requires Looks(s.(config := CONFIG), 0, WithWhole(true), NO_AUDIT, 10, 10) && s.config == HANDED_OVER
    ensures CheckClaim(s, 1, 1) == Ok(Payout(1000, 9, 1))
  {
    WholeClaim(s.entries[1].milestones);
    hide PayoutOf, FeePayoutOf, MilestonePayouts.ClaimFits, Find;
    assert SliceUp(10, 1000) == 1;
  }

  lemma FeeStep(s: State)
    requires Looks(s.(config := CONFIG), 0, WithWhole(true), NO_AUDIT, 10, 10) && s.config == HANDED_OVER
    requires Balance(s.bank, TOKEN, NEW_ADMIN) == 0
    ensures var s' := Next(s, DoClaimMilestone(1, 1));
            1 in s'.entries && s'.entries[1].ledger.feeRecipient == Some(ADMIN) && Balance(s'.bank, TOKEN, NEW_ADMIN) == 1
  {
    hide CallEscrow, CallVote, CallRegistry, CallSetting, CheckClaim, AllOthersClaimed, ClaimAudit;
    WholeChecked(s);
  }

  /** Funded under admin 9, claimed under admin 8: the milestone's fee goes to 8 although the pinned recipient is 9. */
  lemma FeeFollowsAdmin()
    ensures Init(START)
    ensures var s := Run(START, FEE_TO_NEW_ADMIN);
            1 in s.entries && s.entries[1].ledger.feeRecipient == Some(ADMIN) && Balance(s.bank, TOKEN, NEW_ADMIN) == 1
  {
    hide Next, Looks, Run, Funding, Init, Balance;
    StartInit();
    Funded(10);
    var ops1 := Funding(10) + [DoSetMilestones(1, Whole(false))];
    var ops2 := ops1 + [DoVerifyMilestone(ADMIN, 1, 1)];
    var ops3 := ops2 + [Configure(HANDED_OVER)];
    RunMore(START, Funding(10), DoSetMilestones(1, Whole(false)));
    RunMore(START, ops1, DoVerifyMilestone(ADMIN, 1, 1));
    RunMore(START, ops2, Configure(HANDED_OVER));
    RunMore(START, ops3, DoClaimMilestone(1, 1));
    SetWholeStep(Run(START, Funding(10)));
    VerifyWholeStep(Run(START, ops1));
    ConfigureStep(Run(START, ops2));
    FeeStep(Run(START, ops3));
  }
}
