/**
 Runs in which one campaign's money pays another's claims: two campaigns share a token, the first pays out more than it
 took in, and the contributor of the second, cancelled, is refused the refund it is due.
 */
module Overdraws {
  import opened Types
  import opened State
  import opened Contributions
  import opened Payouts
  import opened MilestonePayouts
  import opened RevenueSharing
  import opened Governance
  import opened Registry
  import opened Runs
  import opened Witnesses

  const ANNE: Address := 3
  const BEN: Address := 4
  const CARA: Address := 5

  const STARTUP: CreateParams := CreateParams(CREATOR, "d", 2, 1, EducationalStartup, true, 5000, 0)

  /** A fresh contract; the three contributors own a token each, the creator 8. */
  const ORIGIN: State := START.(bank := map[(TOKEN, ANNE) := 1, (TOKEN, BEN) := 1, (TOKEN, CARA) := 1, (TOKEN, CREATOR) := 8])

  // ---- The two campaigns --------------------------------------------------------------------

  const NO_MILESTONES: Milestones := Milestones([], {})
  const NO_REVENUE: Revenue := Revenue(0, map[], 0, 0, 0)

  function One(verified: bool, raised: int, withdrawn: bool, l: Ledger, ms: Milestones, r: Revenue): Entry {
    Entry(Campaign(1, CREATOR, CREATOR, None, "d", 2, SECONDS_PER_DAY, raised, !withdrawn, withdrawn, false, verified,
                   EducationalStartup, true, 5000, 0, None, false, raised),
          Terms(TOKEN, 0, 0, 0), l, ms, None, r, NO_VOTES, [])
  }

  function Two(verified: bool, raised: int, l: Ledger): Entry {
    Entry(Campaign(2, CREATOR, CREATOR, None, "d", 10, SECONDS_PER_DAY, raised, true, false, false, verified, Learner, false, 0, 0,
                   None, false, raised),
          Terms(TOKEN, 0, 0, 0), l, NO_MILESTONES, None, NO_REVENUE, NO_VOTES, [])
  }

  function From(who: Address): Ledger { Ledger(map[who := 1], map[who := 1], 1, map[], Some(ADMIN), 0, 0) }

  const BOTH: Ledger := Ledger(map[ANNE := 1, BEN := 1], map[ANNE := 1, BEN := 1], 2, map[], Some(ADMIN), 0, 0)

  /** What the steps below look at: the records, the total and some balances. */
  ghost predicate Scene(s: State, config: Config, entries: map<nat, Entry>, total: int, purses: map<Address, int>) {
    && s.now == 0 && s.ledgerSeq == 0 && !s.paused && s.config == config
    && s.entries == entries && s.counters.campaigns == |entries| && s.totalRaised == total
    && Purses(s.bank, purses)
  }

  ghost predicate Purses(b: Bank, purses: map<Address, int>) {
    forall a | a in purses :: Balance(b, TOKEN, a) == purses[a]
  }

  function Moved(purses: map<Address, int>, from: Address, to: Address, amount: int): map<Address, int>
    requires from in purses && to in purses && from != to
  {
    purses[from := purses[from] - amount][to := purses[to] + amount]
  }

  lemma Pay(b: Bank, purses: map<Address, int>, from: Address, to: Address, amount: int)
    requires Purses(b, purses) && from in purses && to in purses && from != to && 0 <= amount <= purses[from]
    ensures Transfer(b, TOKEN, from, to, amount).Ok?
    ensures Purses(Transfer(b, TOKEN, from, to, amount).value, Moved(purses, from, to, amount))
  {
  }

  // ---- Founding and funding -----------------------------------------------------------------

  lemma OriginInit()
    ensures Init(ORIGIN)
    ensures Scene(ORIGIN, CONFIG, map[], 0, map[SELF := 0, ANNE := 1, BEN := 1, CARA := 1, CREATOR := 8])
  {
  }

  lemma CreateStep(s: State, entries: map<nat, Entry>, purses: map<Address, int>, p: CreateParams, e: Entry)
    requires Scene(s, CONFIG, entries, 0, purses) && |entries| < 2 && |entries| + 1 !in entries
    requires p == STARTUP || p == PARAMS
    requires e == NewEntry(s, |entries| + 1, p, None, SECONDS_PER_DAY)
    ensures Scene(Next(s, DoCreate(p, None)), CONFIG, entries[|entries| + 1 := e], 0, purses)
  {
    hide Filed, Categorized, NewEntry, Purses, CallEscrow, CallPayout, CallVote, CallSetting;
    assert CheckParams(CONFIG, p).Pass?;
    assert CalculateDeadline(0, 1) == Ok(SECONDS_PER_DAY);
    assert CheckCreate(s, p, None) == Ok(SECONDS_PER_DAY);
    assert |entries[|entries| + 1 := e]| == |entries| + 1;
  }

  lemma VerifyCampaignStep(s: State, entries: map<nat, Entry>, purses: map<Address, int>, id: nat)
    requires Scene(s, CONFIG, entries, 0, purses) && id in entries
    requires IsOpen(entries[id].campaign) && PhaseOf(entries[id].campaign) == Active
    ensures Scene(Next(s, DoVerify(id)), CONFIG,
                  entries[id := entries[id].(campaign := entries[id].campaign.(isVerified := true))], 0, purses)
  {
    hide Purses, CallEscrow, CallPayout, CallRegistry, CallSetting;
    assert |entries[id := entries[id].(campaign := entries[id].campaign.(isVerified := true))]| == |entries|;
  }

  /** A contribution of 1 to an open, verified campaign that has raised at most half its goal. */
  lemma ContributeStep(s: State, entries: map<nat, Entry>, total: int, purses: map<Address, int>, id: nat, who: Address)
    requires Scene(s, CONFIG, entries, total, purses) && id in entries && 0 <= total <= 2
    requires who in {ANNE, BEN, CARA} && who in purses && SELF in purses && purses[who] == 1
    requires var c := entries[id].campaign;
             && c.isVerified && IsOpen(c) && c.creator == CREATOR && c.deadline == SECONDS_PER_DAY && c.maxPerUser == 0
             && c.fundingGoal in {2, 10} && 0 <= c.amountRaised <= 1 && c.effectiveRaised == c.amountRaised
    requires entries[id].terms.token == TOKEN
    requires var l := entries[id].ledger;
             who !in l.contributions && who !in l.lifetime && who !in l.personalCaps && l.burstLedger == 0 && l.burstCount == 0
    ensures Scene(Next(s, DoContribute(id, who, 1)), CONFIG, entries[id := Accounted(entries[id], ADMIN, who, 1, (0, 0))],
                  total + 1, Moved(purses, who, SELF, 1))
  {
    hide Purses, Accounted, Transfer, CallPayout, CallVote, CallRegistry, CallSetting;
    var e := entries[id];
    assert BurstGuard(e.campaign, e.ledger, 0, 1) == Ok((0, 0));
    assert CheckItem(s, who, id, 1) == Ok((0, 0));
    Pay(s.bank, purses, who, SELF, 1);
    assert |entries[id := Accounted(e, ADMIN, who, 1, (0, 0))]| == |entries|;
  }

  const FOUNDING: seq<Op> := [DoCreate(STARTUP, None)] + [DoCreate(PARAMS, None)] + [DoVerify(1)] + [DoVerify(2)]

  const FUNDING: seq<Op> := FOUNDING + [DoContribute(1, ANNE, 1)] + [DoContribute(1, BEN, 1)] + [DoContribute(2, CARA, 1)]

  function Campaigns(one: Entry): map<nat, Entry> { map[1 := one, 2 := Two(true, 1, From(CARA))] }

  lemma Founded()
    ensures Scene(Run(ORIGIN, FOUNDING), CONFIG,
                  map[1 := One(true, 0, false, NO_LEDGER, NO_MILESTONES, NO_REVENUE), 2 := Two(true, 0, NO_LEDGER)], 0,
                  map[SELF := 0, ANNE := 1, BEN := 1, CARA := 1, CREATOR := 8])
  {
    hide Next, Run, Init, Purses;
    OriginInit();
    var p := map[SELF := 0, ANNE := 1, BEN := 1, CARA := 1, CREATOR := 8];
    var one, two := One(false, 0, false, NO_LEDGER, NO_MILESTONES, NO_REVENUE), Two(false, 0, NO_LEDGER);
    var verified := One(true, 0, false, NO_LEDGER, NO_MILESTONES, NO_REVENUE);
    RunNone(ORIGIN);
    var ops1 := [DoCreate(STARTUP, None)];
    var ops2 := ops1 + [DoCreate(PARAMS, None)];
    var ops3 := ops2 + [DoVerify(1)];
    assert [] + ops1 == ops1;
    RunMore(ORIGIN, [], DoCreate(STARTUP, None));
    RunMore(ORIGIN, ops1, DoCreate(PARAMS, None));
    RunMore(ORIGIN, ops2, DoVerify(1));
    RunMore(ORIGIN, ops3, DoVerify(2));
    CreateStep(ORIGIN, map[], p, STARTUP, one);
    assert map[][1 := one] == map[1 := one];
    CreateStep(Run(ORIGIN, ops1), map[1 := one], p, PARAMS, two);
    assert map[1 := one][2 := two] == map[1 := one, 2 := two];
    VerifyCampaignStep(Run(ORIGIN, ops2), map[1 := one, 2 := two], p, 1);
    assert map[1 := one, 2 := two][1 := verified] == map[1 := verified, 2 := two];
    VerifyCampaignStep(Run(ORIGIN, ops3), map[1 := verified, 2 := two], p, 2);
    assert map[1 := verified, 2 := two][2 := Two(true, 0, NO_LEDGER)] == map[1 := verified, 2 := Two(true, 0, NO_LEDGER)];
  }

  lemma FundedByAnne()
    ensures Scene(Run(ORIGIN, FOUNDING + [DoContribute(1, ANNE, 1)]), CONFIG,
                  map[1 := One(true, 1, false, From(ANNE), NO_MILESTONES, NO_REVENUE), 2 := Two(true, 0, NO_LEDGER)], 1,
                  map[SELF := 1, ANNE := 0, BEN := 1, CARA := 1, CREATOR := 8])
  {
    hide Next, Run, Purses, Scene;
    Founded();
    var one, two := One(true, 0, false, NO_LEDGER, NO_MILESTONES, NO_REVENUE), Two(true, 0, NO_LEDGER);
    var half := One(true, 1, false, From(ANNE), NO_MILESTONES, NO_REVENUE);
    var p := map[SELF := 0, ANNE := 1, BEN := 1, CARA := 1, CREATOR := 8];
    RunMore(ORIGIN, FOUNDING, DoContribute(1, ANNE, 1));
    ContributeStep(Run(ORIGIN, FOUNDING), map[1 := one, 2 := two], 0, p, 1, ANNE);
    assert Accounted(one, ADMIN, ANNE, 1, (0, 0)) == half;
    assert map[1 := one, 2 := two][1 := half] == map[1 := half, 2 := two];
    assert Moved(p, ANNE, SELF, 1) == map[SELF := 1, ANNE := 0, BEN := 1, CARA := 1, CREATOR := 8];
  }

  lemma FundedByBoth()
    ensures Scene(Run(ORIGIN, FOUNDING + [DoContribute(1, ANNE, 1)] + [DoContribute(1, BEN, 1)]), CONFIG,
                  map[1 := One(true, 2, false, BOTH, NO_MILESTONES, NO_REVENUE), 2 := Two(true, 0, NO_LEDGER)], 2,
                  map[SELF := 2, ANNE := 0, BEN := 0, CARA := 1, CREATOR := 8])
  {
    hide Next, Run, Purses, Scene;
    FundedByAnne();
    var half, two := One(true, 1, false, From(ANNE), NO_MILESTONES, NO_REVENUE), Two(true, 0, NO_LEDGER);
    var full := One(true, 2, false, BOTH, NO_MILESTONES, NO_REVENUE);
    var p := map[SELF := 1, ANNE := 0, BEN := 1, CARA := 1, CREATOR := 8];
    var ops := FOUNDING + [DoContribute(1, ANNE, 1)];
    RunMore(ORIGIN, ops, DoContribute(1, BEN, 1));
    ContributeStep(Run(ORIGIN, ops), map[1 := half, 2 := two], 1, p, 1, BEN);
    assert Accounted(half, ADMIN, BEN, 1, (0, 0)) == full;
    assert map[1 := half, 2 := two][1 := full] == map[1 := full, 2 := two];
    assert Moved(p, BEN, SELF, 1) == map[SELF := 2, ANNE := 0, BEN := 0, CARA := 1, CREATOR := 8];
  }

  /** The first campaign has raised its 2 from Anne and Ben, the second 1 from Cara; the contract holds all 3. */
  lemma Funded()
    ensures Scene(Run(ORIGIN, FUNDING), CONFIG, Campaigns(One(true, 2, false, BOTH, NO_MILESTONES, NO_REVENUE)), 3,
                  map[SELF := 3, ANNE := 0, BEN := 0, CARA := 0, CREATOR := 8])
  {
    hide Next, Run, Purses, Scene;
    FundedByBoth();
    var full, two := One(true, 2, false, BOTH, NO_MILESTONES, NO_REVENUE), Two(true, 0, NO_LEDGER);
    var p := map[SELF := 2, ANNE := 0, BEN := 0, CARA := 1, CREATOR := 8];
    var ops := FOUNDING + [DoContribute(1, ANNE, 1)] + [DoContribute(1, BEN, 1)];
    RunMore(ORIGIN, ops, DoContribute(2, CARA, 1));
    ContributeStep(Run(ORIGIN, ops), map[1 := full, 2 := two], 2, p, 2, CARA);
    assert Accounted(two, ADMIN, CARA, 1, (0, 0)) == Two(true, 1, From(CARA));
    assert map[1 := full, 2 := two][2 := Two(true, 1, From(CARA))] == Campaigns(full);
    assert Moved(p, CARA, SELF, 1) == map[SELF := 3, ANNE := 0, BEN := 0, CARA := 0, CREATOR := 8];
  }

  // ---- The refund that fails ----------------------------------------------------------------

  /** Cara is due her 1 back and the contract has none. */
  ghost predicate Stranded(s: State) {
    && 2 in s.entries && Refundable(s.now, s.entries[2].campaign)
    && Get(s.entries[2].ledger.contributions, CARA) == 1
    && ClaimRefund(s, 2, CARA) == Err(TransferFailed)
  }

  lemma CancelStrands(s: State, config: Config, one: Entry, total: int, purses: map<Address, int>)
    requires Scene(s, config, Campaigns(one), total, purses) && SELF in purses && purses[SELF] == 0 && 0 <= total <= 3
    ensures Stranded(Next(s, DoCancel(2)))
  {
    hide CallPayout, CallVote, CallRegistry, CallSetting;
    assert CancelCampaign(s, 2).Ok?;
    assert Balance(s.bank, TOKEN, SELF) == 0;
  }

  // ---- Revenue ------------------------------------------------------------------------------

  function Sharing(r: Revenue): map<nat, Entry> { Campaigns(One(true, 2, true, BOTH, NO_MILESTONES, r)) }

  lemma WithdrawStep(s: State, purses: map<Address, int>)
    requires Scene(s, CONFIG, Campaigns(One(true, 2, false, BOTH, NO_MILESTONES, NO_REVENUE)), 3, purses)
    requires SELF in purses && CREATOR in purses && purses[SELF] == 3
    ensures Scene(Next(s, DoWithdrawFunds(1)), CONFIG, Sharing(NO_REVENUE), 1, Moved(purses, SELF, CREATOR, 2))
  {
    hide Purses, Transfer, CallPayout, CallVote, CallRegistry, CallSetting;
    var e := One(true, 2, false, BOTH, NO_MILESTONES, NO_REVENUE);
    assert SplitOf(CONFIG, e) == Split(0, 0, 2);
    assert CheckWithdraw(s, 1) == Ok(1);
    PayZero(s.bank, purses);
    Pay(Transfer(s.bank, TOKEN, SELF, ADMIN, 0).value, purses, SELF, CREATOR, 2);
    assert s.entries[1 := WithdrawnEntry(e, 0, 0)] == Sharing(NO_REVENUE);
  }

  lemma PayZero(b: Bank, purses: map<Address, int>)
    requires Purses(b, purses) && SELF in purses && 0 <= purses[SELF]
    ensures Transfer(b, TOKEN, SELF, ADMIN, 0).Ok? && Purses(Transfer(b, TOKEN, SELF, ADMIN, 0).value, purses)
  {
  }

  lemma DepositStep(s: State, r: Revenue, purses: map<Address, int>, amount: int)
    requires Scene(s, CONFIG, Sharing(r), 1, purses)
    requires SELF in purses && CREATOR in purses && 0 < amount <= purses[CREATOR] && 0 <= r.pool <= 100 && amount <= 100
    ensures Scene(Next(s, DoDepositRevenue(1, amount)), CONFIG, Sharing(r.(pool := r.pool + amount)), 1,
                  Moved(purses, CREATOR, SELF, amount))
  {
    hide Purses, Transfer, CallEscrow, CallVote, CallRegistry, CallSetting;
    Pay(s.bank, purses, CREATOR, SELF, amount);
    var e := One(true, 2, true, BOTH, NO_MILESTONES, r);
    assert s.entries[1 := e.(revenue := r.(pool := r.pool + amount))] == Sharing(r.(pool := r.pool + amount));
  }

  lemma ClaimRevenueStep(s: State, r: Revenue, r': Revenue, purses: map<Address, int>, who: Address)
    requires Scene(s, CONFIG, Sharing(r), 1, purses) && who in {ANNE, BEN} && who in purses && SELF in purses
    requires var e := One(true, 2, true, BOTH, NO_MILESTONES, r);
             Claim(e, who) == Ok(e.(revenue := r')) && 0 <= Claimable(e, who) <= purses[SELF]
    ensures Scene(Next(s, DoClaimRevenue(1, who)), CONFIG, Sharing(r'), 1,
                  Moved(purses, SELF, who, Claimable(One(true, 2, true, BOTH, NO_MILESTONES, r), who)))
  {
    hide Purses, Transfer, Claim, Claimable, LastClaimant, AuditClaim, CallEscrow, CallVote, CallRegistry, CallSetting;
    var e := One(true, 2, true, BOTH, NO_MILESTONES, r);
    Pay(s.bank, purses, SELF, who, Claimable(e, who));
    assert s.entries[1 := e.(revenue := r')] == Sharing(r');
  }

  lemma CreatorDue(r: Revenue, amount: int)
    requires 0 <= r.pool <= 100 && amount == r.pool / 2 - r.creatorClaimed && 0 < amount
    ensures var e := One(true, 2, true, BOTH, NO_MILESTONES, r);
            CreatorClaim(e) == Ok(e.(revenue := r.(creatorClaimed := r.creatorClaimed + amount)))
  {
    assert CreatorShare(r.pool, 5000) == r.pool / 2;
  }

  lemma CreatorClaimStep(s: State, r: Revenue, purses: map<Address, int>, amount: int)
    requires Scene(s, CONFIG, Sharing(r), 1, purses) && SELF in purses && CREATOR in purses
    requires 0 <= r.pool <= 100 && amount == r.pool / 2 - r.creatorClaimed && 0 < amount <= purses[SELF]
    ensures Scene(Next(s, DoClaimCreatorRevenue(1)), CONFIG, Sharing(r.(creatorClaimed := r.creatorClaimed + amount)), 1,
                  Moved(purses, SELF, CREATOR, amount))
  {
    hide Purses, Transfer, ClaimCreatorRevenue, CallEscrow, CallVote, CallRegistry, CallSetting;
    Pay(s.bank, purses, SELF, CREATOR, amount);
    CreatorPaid(s, r, amount);
    var e := One(true, 2, true, BOTH, NO_MILESTONES, r);
    assert s.entries[1 := e.(revenue := r.(creatorClaimed := r.creatorClaimed + amount))]
        == Sharing(r.(creatorClaimed := r.creatorClaimed + amount));
  }

  lemma CreatorPaid(s: State, r: Revenue, amount: int)
    requires s.entries == Sharing(r) && !s.paused && Transfer(s.bank, TOKEN, SELF, CREATOR, amount).Ok?
    requires 0 <= r.pool <= 100 && amount == r.pool / 2 - r.creatorClaimed && 0 < amount
    ensures var e := One(true, 2, true, BOTH, NO_MILESTONES, r);
            ClaimCreatorRevenue(s, 1) == Ok(Put(s, 1, e.(revenue := r.(creatorClaimed := r.creatorClaimed + amount)), AuditOf(s, 1))
                                            .(bank := Transfer(s.bank, TOKEN, SELF, CREATOR, amount).value))
  {
    hide Transfer, CreatorClaim;
    CreatorDue(r, amount);
  }

  /** An ordinary claim of 1. */
  lemma ClaimOne(r: Revenue, who: Address, had: int)
    requires who in {ANNE, BEN} && Get(r.claimed, who) == had && 0 <= had <= 1 && r.claimants <= 2
    requires (had == 0 && r.claimants == 0) || had == 1
    requires 4 * (had + 1) <= r.pool < 4 * (had + 2) && 0 <= r.distributed <= 100
    ensures var e := One(true, 2, true, BOTH, NO_MILESTONES, r);
            && Claimable(e, who) == 1
            && Claim(e, who) == Ok(e.(revenue := r.(claimed := r.claimed[who := had + 1], distributed := r.distributed + 1,
                                                    claimants := if had == 0 then 1 else r.claimants)))
  {
    var e := One(true, 2, true, BOTH, NO_MILESTONES, r);
    assert Get(BOTH.contributions, who) == 1;
    assert DueTo(e, who) == had + 1;
    assert DueFits(e, who);
    assert !LastClaimant(e, who) && Claimable(e, who) == 1;
  }

  /** Ben is the last claimant and takes 3 of the contributors' 4. */
  lemma ClaimLast(r: Revenue)
    requires r.claimed == map[ANNE := 1] && r.claimants == 1 && r.distributed == 1 && 7 <= r.pool <= 8
    ensures var e := One(true, 2, true, BOTH, NO_MILESTONES, r);
            && Claimable(e, BEN) == 3
            && Claim(e, BEN) == Ok(e.(revenue := r.(claimed := map[ANNE := 1, BEN := 3], distributed := 4, claimants := 2)))
  {
    var e := One(true, 2, true, BOTH, NO_MILESTONES, r);
    assert DueTo(e, BEN) == r.pool / 4;
    assert ContributorShare(r.pool, 5000) == 4;
    assert LastClaimant(e, BEN) && Claimable(e, BEN) == 3;
    assert DueFits(e, BEN);
    assert r.claimed[BEN := 3] == map[ANNE := 1, BEN := 3];
  }

  const WITHDRAWN: seq<Op> := FUNDING + [DoWithdrawFunds(1)]

  /** Deposits of 4 before and after Anne's first claim. */
  const DEPOSIT_BEFORE_SWEEP: seq<Op> :=
    WITHDRAWN + [DoDepositRevenue(1, 4)] + [DoClaimRevenue(1, ANNE)] + [DoDepositRevenue(1, 4)] + [DoClaimRevenue(1, BEN)]
    + [DoClaimCreatorRevenue(1)] + [DoClaimRevenue(1, ANNE)] + [DoCancel(2)]

  /** A deposit of 7, a full round, then a deposit of 1. */
  const DEPOSIT_AFTER_SWEEP: seq<Op> :=
    WITHDRAWN + [DoDepositRevenue(1, 7)] + [DoClaimRevenue(1, ANNE)] + [DoClaimRevenue(1, BEN)] + [DoClaimCreatorRevenue(1)]
    + [DoDepositRevenue(1, 1)] + [DoClaimCreatorRevenue(1)] + [DoClaimRevenue(1, ANNE)] + [DoCancel(2)]

  lemma Withdrew()
    ensures Scene(Run(ORIGIN, WITHDRAWN), CONFIG, Sharing(NO_REVENUE), 1,
                  map[SELF := 1, ANNE := 0, BEN := 0, CARA := 0, CREATOR := 10])
  {
    hide Next, Run, Scene;
    Funded();
    RunMore(ORIGIN, FUNDING, DoWithdrawFunds(1));
    WithdrawStep(Run(ORIGIN, FUNDING), map[SELF := 3, ANNE := 0, BEN := 0, CARA := 0, CREATOR := 8]);
    assert Moved(map[SELF := 3, ANNE := 0, BEN := 0, CARA := 0, CREATOR := 8], SELF, CREATOR, 2)
        == map[SELF := 1, ANNE := 0, BEN := 0, CARA := 0, CREATOR := 10];
  }

  /** After deposits of 8 in all, 9 have been claimed: Ben, last, took what Anne was still due; her second claim took Cara's 1. */
  lemma DepositBeforeSweepOverdraws()
    ensures Init(ORIGIN) && Stranded(Run(ORIGIN, DEPOSIT_BEFORE_SWEEP))
  {
    hide Next, Run, Scene, Init, Stranded, Claim, Claimable, Sharing;
    OriginInit();
    Withdrew();
    var p0 := map[SELF := 1, ANNE := 0, BEN := 0, CARA := 0, CREATOR := 10];
    var ops1 := WITHDRAWN + [DoDepositRevenue(1, 4)];
    var ops2 := ops1 + [DoClaimRevenue(1, ANNE)];
    var ops3 := ops2 + [DoDepositRevenue(1, 4)];
    var ops4 := ops3 + [DoClaimRevenue(1, BEN)];
    RunMore(ORIGIN, WITHDRAWN, DoDepositRevenue(1, 4));
    DepositStep(Run(ORIGIN, WITHDRAWN), NO_REVENUE, p0, 4);
    var p1, r1 := Moved(p0, CREATOR, SELF, 4), Revenue(4, map[], 0, 0, 0);
    RunMore(ORIGIN, ops1, DoClaimRevenue(1, ANNE));
    ClaimOne(r1, ANNE, 0);
    assert map[][ANNE := 1] == map[ANNE := 1];
    ClaimRevenueStep(Run(ORIGIN, ops1), r1, Revenue(4, map[ANNE := 1], 0, 1, 1), p1, ANNE);
    var p2 := Moved(p1, SELF, ANNE, 1);
    RunMore(ORIGIN, ops2, DoDepositRevenue(1, 4));
    DepositStep(Run(ORIGIN, ops2), Revenue(4, map[ANNE := 1], 0, 1, 1), p2, 4);
    var p3, r3 := Moved(p2, CREATOR, SELF, 4), Revenue(8, map[ANNE := 1], 0, 1, 1);
    RunMore(ORIGIN, ops3, DoClaimRevenue(1, BEN));
    ClaimLast(r3);
    ClaimRevenueStep(Run(ORIGIN, ops3), r3, Revenue(8, map[ANNE := 1, BEN := 3], 0, 4, 2), p3, BEN);
    AnneTakesCaras(ops4, 0, Moved(p3, SELF, BEN, 3));
  }

  /** With 5 left of which the creator's share is 4, the creator and then Anne claim. */
  lemma AnneTakesCaras(ops: seq<Op>, creatorClaimed: int, purses: map<Address, int>)
    requires 0 <= creatorClaimed <= 3
    requires Scene(Run(ORIGIN, ops), CONFIG, Sharing(Revenue(8, map[ANNE := 1, BEN := 3], creatorClaimed, 4, 2)), 1, purses)
    requires SELF in purses && CREATOR in purses && ANNE in purses && purses[SELF] == 5 - creatorClaimed
    ensures Stranded(Run(ORIGIN, ops + [DoClaimCreatorRevenue(1)] + [DoClaimRevenue(1, ANNE)] + [DoCancel(2)]))
  {
    hide Next, Run, Scene, Stranded, Claim, Claimable;
    var ops1 := ops + [DoClaimCreatorRevenue(1)];
    var ops2 := ops1 + [DoClaimRevenue(1, ANNE)];
    var r := Revenue(8, map[ANNE := 1, BEN := 3], 4, 4, 2);
    RunMore(ORIGIN, ops, DoClaimCreatorRevenue(1));
    CreatorClaimStep(Run(ORIGIN, ops), r.(creatorClaimed := creatorClaimed), purses, 4 - creatorClaimed);
    var p1 := Moved(purses, SELF, CREATOR, 4 - creatorClaimed);
    RunMore(ORIGIN, ops1, DoClaimRevenue(1, ANNE));
    ClaimOne(r, ANNE, 1);
    var r' := r.(claimed := r.claimed[ANNE := 2], distributed := 5);
    ClaimRevenueStep(Run(ORIGIN, ops1), r, r', p1, ANNE);
    RunMore(ORIGIN, ops2, DoCancel(2));
    CancelStrands(Run(ORIGIN, ops2), CONFIG, One(true, 2, true, BOTH, NO_MILESTONES, r'), 1, Moved(p1, SELF, ANNE, 1));
  }

  const ROUND: seq<Op> :=
    WITHDRAWN + [DoDepositRevenue(1, 7)] + [DoClaimRevenue(1, ANNE)] + [DoClaimRevenue(1, BEN)] + [DoClaimCreatorRevenue(1)]

  lemma AnnePaid()
    ensures Scene(Run(ORIGIN, WITHDRAWN + [DoDepositRevenue(1, 7)] + [DoClaimRevenue(1, ANNE)]), CONFIG,
                  Sharing(Revenue(7, map[ANNE := 1], 0, 1, 1)), 1, map[SELF := 7, ANNE := 1, BEN := 0, CARA := 0, CREATOR := 3])
  {
    hide Next, Run, Scene, Claim, Claimable, Sharing;
    Withdrew();
    var ops := WITHDRAWN + [DoDepositRevenue(1, 7)];
    var p0 := map[SELF := 1, ANNE := 0, BEN := 0, CARA := 0, CREATOR := 10];
    var p1 := map[SELF := 8, ANNE := 0, BEN := 0, CARA := 0, CREATOR := 3];
    RunMore(ORIGIN, WITHDRAWN, DoDepositRevenue(1, 7));
    DepositStep(Run(ORIGIN, WITHDRAWN), NO_REVENUE, p0, 7);
    assert Moved(p0, CREATOR, SELF, 7) == p1;
    RunMore(ORIGIN, ops, DoClaimRevenue(1, ANNE));
    ClaimOne(Revenue(7, map[], 0, 0, 0), ANNE, 0);
    assert map[][ANNE := 1] == map[ANNE := 1];
    ClaimRevenueStep(Run(ORIGIN, ops), Revenue(7, map[], 0, 0, 0), Revenue(7, map[ANNE := 1], 0, 1, 1), p1, ANNE);
    assert Moved(p1, SELF, ANNE, 1) == map[SELF := 7, ANNE := 1, BEN := 0, CARA := 0, CREATOR := 3];
  }

  /** A full round over a pool of 7 pays it out to the last unit. */
  lemma RoundPaid()
    ensures Scene(Run(ORIGIN, ROUND), CONFIG, Sharing(Revenue(7, map[ANNE := 1, BEN := 3], 3, 4, 2)), 1,
                  map[SELF := 1, ANNE := 1, BEN := 3, CARA := 0, CREATOR := 6])
  {
    hide Next, Run, Scene, Claim, Claimable, Sharing;
    AnnePaid();
    var ops1 := WITHDRAWN + [DoDepositRevenue(1, 7)] + [DoClaimRevenue(1, ANNE)];
    var ops2 := ops1 + [DoClaimRevenue(1, BEN)];
    var r1, r2 := Revenue(7, map[ANNE := 1], 0, 1, 1), Revenue(7, map[ANNE := 1, BEN := 3], 0, 4, 2);
    var p1 := map[SELF := 7, ANNE := 1, BEN := 0, CARA := 0, CREATOR := 3];
    var p2 := map[SELF := 4, ANNE := 1, BEN := 3, CARA := 0, CREATOR := 3];
    RunMore(ORIGIN, ops1, DoClaimRevenue(1, BEN));
    ClaimLast(r1);
    ClaimRevenueStep(Run(ORIGIN, ops1), r1, r2, p1, BEN);
    assert Moved(p1, SELF, BEN, 3) == p2;
    RunMore(ORIGIN, ops2, DoClaimCreatorRevenue(1));
    CreatorClaimStep(Run(ORIGIN, ops2), r2, p2, 3);
    assert Moved(p2, SELF, CREATOR, 3) == map[SELF := 1, ANNE := 1, BEN := 3, CARA := 0, CREATOR := 6];
  }

  /** After that round a deposit of 1 entitles the creator to 1 more and Anne to 1 more: Anne's claim takes Cara's 1. */
  lemma DepositAfterSweepOverdraws()
    ensures Init(ORIGIN) && Stranded(Run(ORIGIN, DEPOSIT_AFTER_SWEEP))
  {
    hide Next, Run, Scene, Init, Stranded, Sharing;
    OriginInit();
    RoundPaid();
    var p := map[SELF := 1, ANNE := 1, BEN := 3, CARA := 0, CREATOR := 6];
    RunMore(ORIGIN, ROUND, DoDepositRevenue(1, 1));
    DepositStep(Run(ORIGIN, ROUND), Revenue(7, map[ANNE := 1, BEN := 3], 3, 4, 2), p, 1);
    AnneTakesCaras(ROUND + [DoDepositRevenue(1, 1)], 3, Moved(p, CREATOR, SELF, 1));
  }

  // ---- A fee change between two milestone claims ----------------------------------------------

  const PAIR: seq<Milestone> := [Milestone(1, "a", 5000, true), Milestone(2, "b", 5000, true)]

  const DEARER: Config := CONFIG.(platformFee := 1000)

  function Staged(ms: Milestones, withdrawn: bool): map<nat, Entry> { Campaigns(One(true, 2, withdrawn, BOTH, ms, NO_REVENUE)) }

  const STAGED: seq<Op> :=
    FUNDING + [DoSetMilestones(1, Halves(false))] + [DoVerifyMilestone(ADMIN, 1, 1)] + [DoVerifyMilestone(ADMIN, 1, 2)]

  const FEE_CHANGE: seq<Op> :=
    STAGED + [DoClaimMilestone(1, 1)] + [DoUpdatePlatformFee(1000)] + [DoClaimMilestone(1, 2)] + [DoCancel(2)]

  lemma SetMilestonesStep(s: State, purses: map<Address, int>)
    requires Scene(s, CONFIG, Staged(NO_MILESTONES, false), 3, purses)
    ensures Scene(Next(s, DoSetMilestones(1, Halves(false))), CONFIG, Staged(Milestones(Halves(false), {}), false), 3, purses)
  {
    HalvesFormed();
    hide Purses, WellFormed, Normalized, CallEscrow, CallVote, CallRegistry, CallSetting;
    var e := One(true, 2, false, BOTH, NO_MILESTONES, NO_REVENUE);
    assert s.entries[1 := e.(milestones := Milestones(Halves(false), {}))] == Staged(Milestones(Halves(false), {}), false);
  }

  lemma MarkStep(s: State, purses: map<Address, int>, list: seq<Milestone>, mid: nat, list': seq<Milestone>)
    requires Scene(s, CONFIG, Staged(Milestones(list, {}), false), 3, purses)
    requires |list| == 2 && list[0].id == 1 && list[1].id == 2 && mid in {1, 2} && !list[mid - 1].verified
    requires MarkVerified(list, mid) == list'
    ensures Scene(Next(s, DoVerifyMilestone(ADMIN, 1, mid)), CONFIG, Staged(Milestones(list', {}), false), 3, purses)
  {
    hide Purses, VerifyMilestone, MarkVerified, CallEscrow, CallVote, CallRegistry, CallSetting;
    Marked(s, list, mid, list');
    var e := One(true, 2, false, BOTH, Milestones(list, {}), NO_REVENUE);
    assert s.entries[1 := e.(milestones := Milestones(list', {}))] == Staged(Milestones(list', {}), false);
  }

  lemma Marked(s: State, list: seq<Milestone>, mid: nat, list': seq<Milestone>)
    requires s.entries == Staged(Milestones(list, {}), false) && !s.paused && s.config.admin == ADMIN
    requires |list| == 2 && list[0].id == 1 && list[1].id == 2 && mid in {1, 2} && !list[mid - 1].verified
    requires MarkVerified(list, mid) == list'
    ensures var e := One(true, 2, false, BOTH, Milestones(list, {}), NO_REVENUE);
            VerifyMilestone(s, ADMIN, 1, mid) == Ok(Put(s, 1, e.(milestones := Milestones(list', {})), AuditOf(s, 1)))
  {
    hide MarkVerified;
    assert list[mid - 1].id == mid;
  }

  /** Both milestones verified, nothing claimed, everything still held. */
  lemma StagedScene()
    ensures Scene(Run(ORIGIN, STAGED), CONFIG, Staged(Milestones(PAIR, {}), false), 3,
                  map[SELF := 3, ANNE := 0, BEN := 0, CARA := 0, CREATOR := 8])
  {
    hide Next, Run, Scene;
    Funded();
    HalvesFormed();
    var p := map[SELF := 3, ANNE := 0, BEN := 0, CARA := 0, CREATOR := 8];
    var ops1 := FUNDING + [DoSetMilestones(1, Halves(false))];
    var ops2 := ops1 + [DoVerifyMilestone(ADMIN, 1, 1)];
    RunMore(ORIGIN, FUNDING, DoSetMilestones(1, Halves(false)));
    RunMore(ORIGIN, ops1, DoVerifyMilestone(ADMIN, 1, 1));
    RunMore(ORIGIN, ops2, DoVerifyMilestone(ADMIN, 1, 2));
    SetMilestonesStep(Run(ORIGIN, FUNDING), p);
    MarkStep(Run(ORIGIN, ops1), p, Halves(false), 1, Halves(true));
    assert MarkVerified(Halves(true), 2) == PAIR;
    MarkStep(Run(ORIGIN, ops2), p, Halves(true), 2, PAIR);
  }

  /** The claimed shares and slices of the pair, whichever half is claimed. */
  lemma PairSums(claimed: set<nat>, x: int)
    requires claimed == {} || claimed == {1}
    ensures ClaimedBps(PAIR, claimed) == if claimed == {} then 0 else 5000
    ensures ClaimedSlices(PAIR, claimed, x) == if claimed == {} then 0 else Slice(x, 5000)
  {
    var front := PAIR[..1];
    assert front == [PAIR[0]] && front[..0] == [];
    assert ClaimedBps(front, claimed) == if claimed == {} then 0 else 5000;
    assert ClaimedSlices(front, claimed, x) == if claimed == {} then 0 else Slice(x, 5000);
  }

  lemma FindPair(mid: nat)
    requires mid in {1, 2}
    ensures Find(PAIR, mid) == Some(PAIR[mid - 1])
  {
    assert PAIR[1..][0] == PAIR[1];
  }

  /** Without a fee the first half of 2 pays 1. */
  lemma FirstHalf()
    ensures var ms := Milestones(PAIR, {});
            && PayoutOf(ms, PAIR[0], 2) == 1 && FeePayoutOf(ms, PAIR[0], 0) == 0
            && MilestonePayouts.ClaimFits(ms, PAIR[0], 2, 0) && !AllOthersClaimed(ms, 1)
  {
    hide ClaimedBps, ClaimedSlices;
    PairSums({}, 2);
    PairSums({}, 0);
    assert PAIR[1].id == 2;
  }

  /** With a fee of 1 on the 2 raised, the second half pays 1 and the whole fee: the first half's slices come to nothing now. */
  lemma SecondHalf()
    ensures var ms := Milestones(PAIR, {1});
            && PayoutOf(ms, PAIR[1], 1) == 1 && FeePayoutOf(ms, PAIR[1], 1) == 1
            && MilestonePayouts.ClaimFits(ms, PAIR[1], 1, 1) && AllOthersClaimed(ms, 2)
  {
    hide ClaimedBps, ClaimedSlices;
    PairSums({1}, 1);
    assert PAIR[0].id == 1;
  }

  lemma FirstChecked(s: State, purses: map<Address, int>)
    requires Scene(s, CONFIG, Staged(Milestones(PAIR, {}), false), 3, purses)
    ensures CheckClaim(s, 1, 1) == Ok(Payout(0, 1, 0))
  {
    FirstHalf();
    FindPair(1);
    hide Purses, PayoutOf, FeePayoutOf, MilestonePayouts.ClaimFits, AllOthersClaimed, Find;
    assert SliceUp(2, 0) == 0;
  }

  /** A claim that checks out and is paid: what is left of the scene. */
  lemma ClaimStaged(s: State, config: Config, claimed: set<nat>, total: int, purses: map<Address, int>, mid: nat, p: Payout,
                    paid: Bank, after: map<Address, int>)
    requires Scene(s, config, Staged(Milestones(PAIR, claimed), false), total, purses) && config.admin == ADMIN
    requires CheckClaim(s, 1, mid) == Ok(p) && PayClaim(s.bank, TOKEN, ADMIN, CREATOR, p) == Ok(paid) && Purses(paid, after)
    ensures Scene(Next(s, DoClaimMilestone(1, mid)), config,
                  Staged(Milestones(PAIR, claimed + {mid}), AllOthersClaimed(Milestones(PAIR, claimed), mid)),
                  total - (p.feePay + p.pay), after)
  {
    hide Purses, CheckClaim, PayClaim, AllOthersClaimed, ClaimAudit, ClaimedEntry, CallEscrow, CallVote, CallRegistry,
         CallSetting;
    StagedEntry(claimed, mid);
  }

  lemma StagedEntry(claimed: set<nat>, mid: nat)
    ensures Staged(Milestones(PAIR, claimed), false)[1 := ClaimedEntry(One(true, 2, false, BOTH, Milestones(PAIR, claimed), NO_REVENUE), mid)]
         == Staged(Milestones(PAIR, claimed + {mid}), AllOthersClaimed(Milestones(PAIR, claimed), mid))
  {
    hide AllOthersClaimed;
  }

  lemma FirstClaimStep(s: State, p: map<Address, int>)
    requires p == map[SELF := 3, ANNE := 0, BEN := 0, CARA := 0, CREATOR := 8]
    requires Scene(s, CONFIG, Staged(Milestones(PAIR, {}), false), 3, p)
    ensures Scene(Next(s, DoClaimMilestone(1, 1)), CONFIG, Staged(Milestones(PAIR, {1}), false), 2,
                  map[SELF := 2, ANNE := 0, BEN := 0, CARA := 0, CREATOR := 9])
  {
    hide Purses, Transfer, Next, CheckClaim, AllOthersClaimed, Staged;
    FirstHalf();
    FirstChecked(s, p);
    Pay(s.bank, p, SELF, CREATOR, 1);
    assert Moved(p, SELF, CREATOR, 1) == map[SELF := 2, ANNE := 0, BEN := 0, CARA := 0, CREATOR := 9];
    assert {} + {1} == {1};
    ClaimStaged(s, CONFIG, {}, 3, p, 1, Payout(0, 1, 0), Transfer(s.bank, TOKEN, SELF, CREATOR, 1).value, Moved(p, SELF, CREATOR, 1));
  }

  lemma FeeStep(s: State, entries: map<nat, Entry>, total: int, purses: map<Address, int>)
    requires Scene(s, CONFIG, entries, total, purses)
    ensures Scene(Next(s, DoUpdatePlatformFee(1000)), DEARER, entries, total, purses)
  {
    hide Purses, CallEscrow, CallPayout, CallVote, CallRegistry;
  }

  lemma SecondChecked(s: State, purses: map<Address, int>)
    requires Scene(s, DEARER, Staged(Milestones(PAIR, {1}), false), 2, purses)
    ensures CheckClaim(s, 1, 2) == Ok(Payout(1000, 1, 1))
  {
    SecondHalf();
    FindPair(2);
    hide Purses, PayoutOf, FeePayoutOf, MilestonePayouts.ClaimFits, AllOthersClaimed, Find;
    assert SliceUp(2, 1000) == 1;
  }

  lemma SecondClaimStep(s: State, p: map<Address, int>)
    requires p == map[SELF := 2, ANNE := 0, BEN := 0, CARA := 0, CREATOR := 9]
    requires Scene(s, DEARER, Staged(Milestones(PAIR, {1}), false), 2, p)
    ensures Scene(Next(s, DoClaimMilestone(1, 2)), DEARER, Staged(Milestones(PAIR, {1, 2}), true), 0,
                  map[SELF := 0, ANNE := 0, BEN := 0, CARA := 0, CREATOR := 10])
  {
    hide Purses, Transfer, Next, CheckClaim, AllOthersClaimed, Staged;
    SecondHalf();
    SecondChecked(s, p);
    PayAdmin(s.bank, p);
    var b1, q := Transfer(s.bank, TOKEN, SELF, ADMIN, 1).value, p[SELF := 1];
    Pay(b1, q, SELF, CREATOR, 1);
    assert Moved(q, SELF, CREATOR, 1) == map[SELF := 0, ANNE := 0, BEN := 0, CARA := 0, CREATOR := 10];
    assert {1} + {2} == {1, 2};
    ClaimStaged(s, DEARER, {1}, 2, p, 2, Payout(1000, 1, 1), Transfer(b1, TOKEN, SELF, CREATOR, 1).value, Moved(q, SELF, CREATOR, 1));
  }

  lemma PayAdmin(b: Bank, p: map<Address, int>)
    requires Purses(b, p) && SELF in p && ADMIN !in p && 1 <= p[SELF]
    ensures Transfer(b, TOKEN, SELF, ADMIN, 1).Ok? && Purses(Transfer(b, TOKEN, SELF, ADMIN, 1).value, p[SELF := p[SELF] - 1])
  {
  }

  /** Raised 2, paid out 3: a claim of 1 without fee, then 1 and a fee of 1 at 10%. The third came from Cara. */
  lemma FeeChangeOverpays()
    ensures Init(ORIGIN) && Stranded(Run(ORIGIN, FEE_CHANGE))
  {
    hide Next, Run, Scene, Init, Stranded, Purses;
    OriginInit();
    StagedScene();
    var ops1 := STAGED + [DoClaimMilestone(1, 1)];
    var ops2 := ops1 + [DoUpdatePlatformFee(1000)];
    var ops3 := ops2 + [DoClaimMilestone(1, 2)];
    var p := map[SELF := 2, ANNE := 0, BEN := 0, CARA := 0, CREATOR := 9];
    RunMore(ORIGIN, STAGED, DoClaimMilestone(1, 1));
    RunMore(ORIGIN, ops1, DoUpdatePlatformFee(1000));
    RunMore(ORIGIN, ops2, DoClaimMilestone(1, 2));
    RunMore(ORIGIN, ops3, DoCancel(2));
    FirstClaimStep(Run(ORIGIN, STAGED), map[SELF := 3, ANNE := 0, BEN := 0, CARA := 0, CREATOR := 8]);
    FeeStep(Run(ORIGIN, ops1), Staged(Milestones(PAIR, {1}), false), 2, p);
    SecondClaimStep(Run(ORIGIN, ops2), p);
    CancelStrands(Run(ORIGIN, ops3), DEARER, One(true, 2, true, BOTH, Milestones(PAIR, {1, 2}), NO_REVENUE), 0,
                  map[SELF := 0, ANNE := 0, BEN := 0, CARA := 0, CREATOR := 10]);
  }
}
