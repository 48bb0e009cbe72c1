/** Where the terms, fees, caps, milestones, owners and contributions of a reachable campaign come from: the calls of its run. */
module Traces {
  import opened Types
  import opened State
  import opened Contributions
  import opened MilestonePayouts
  import opened Governance
  import opened Registry
  import opened Invariants
  import opened Compose
  import opened Runs
  import opened Frames
  import ContributionProofs

  lemma NothingAtStart(s: State)
    requires Init(s)
    ensures s.entries == map[]
  {
  }

  // ---- Creation -----------------------------------------------------------------------------

  /** The `c`-th call created campaign `id`. */
  predicate CreatedAt(s: State, ops: seq<Op>, id: nat, c: nat) {
    Succeeds(s, ops, c) && ops[c].DoCreate? && id == At(s, ops, c).counters.campaigns + 1
  }

  /** Every campaign of a run was created by one of its calls. */
  lemma {:induction false} CreationCall(s: State, ops: seq<Op>, id: nat) returns (c: nat)
    requires Init(s) && id in Run(s, ops).entries
    ensures CreatedAt(s, ops, id, c)
    decreases |ops|
  {
    hide Init, Inv, IdsInv, Run, Next, Call, Fresh;
    if ops == [] {
      NothingAtStart(s);
      RunsNothing(s);
    } else {
      var front := ops[..|ops| - 1];
      Reached(s, ops);
      if id in Run(s, front).entries {
        c := CreationCall(s, front, id);
        assert ops[..c] == front[..c];
      } else {
        c := |front|;
        StepCreates(Run(s, front), ops[c], id);
      }
    }
  }

  lemma RunsNothing(s: State)
    ensures Run(s, []) == s
  {
  }

  lemma CreatedFresh(s: State, ops: seq<Op>, id: nat, c: nat)
    requires CreatedAt(s, ops, id, c)
    ensures id in At(s, ops, c + 1).entries
    ensures Fresh(At(s, ops, c).now, At(s, ops, c).config, ops[c].params, ops[c].token, id, At(s, ops, c + 1).entries[id])
  {
    hide Run, Call, CreateCampaign, Fresh;
    AtNext(s, ops, c);
    CallIsCreate(At(s, ops, c), ops[c].params, ops[c].token);
    CreateFresh(At(s, ops, c), ops[c].params, ops[c].token);
  }

  /** In every later state the campaign has the currency, start, vesting terms, goal, cap and shares of its creation. */
  lemma TermsFromCreation(s: State, ops: seq<Op>, id: nat, c: nat)
    requires Init(s) && CreatedAt(s, ops, id, c)
    ensures id in Run(s, ops).entries
    ensures var e, p, was := Run(s, ops).entries[id], ops[c].params, At(s, ops, c);
            && e.terms.token == (if ops[c].token.Some? then ops[c].token.value else was.config.platformToken)
            && e.terms.startTime == was.now
            && e.terms.vestingDelayDays == was.config.vestingDelayDays && e.terms.vestingBps == was.config.vestingBps
            && e.campaign.firstCreator == p.creator && e.campaign.fundingGoal == p.fundingGoal
            && e.campaign.category == p.category && e.campaign.maxPerUser == p.maxPerUser
            && e.campaign.revenueShare == (if p.hasRevenueSharing then p.revenueShare else 0)
  {
    hide Init, Inv, Run, Next, CreatedAt;
    CreatedFresh(s, ops, id, c);
    InitInv(s);
    CreatedInRange(s, ops, id, c);
    RunEvolves(s, ops, c + 1, |ops|);
    assert ops[..|ops|] == ops;
  }

  lemma CreatedInRange(s: State, ops: seq<Op>, id: nat, c: nat)
    requires CreatedAt(s, ops, id, c)
    ensures c < |ops|
  {
  }

  // ---- The deadline -------------------------------------------------------------------------

  /** Days added by the successful extensions of campaign `id`. */
  function ExtraDays(s: State, ops: seq<Op>, id: nat): nat {
    if ops == [] then 0
    else
      var op := ops[|ops| - 1];
      ExtraDays(s, ops[..|ops| - 1], id)
      + if op.DoExtendDeadline? && op.id == id && Call(Run(s, ops[..|ops| - 1]), op).Ok? then op.days else 0
  }

  lemma {:induction false} NoExtraYet(s: State, ops: seq<Op>, id: nat)
    requires Init(s) && id !in Run(s, ops).entries
    ensures ExtraDays(s, ops, id) == 0
    decreases |ops|
  {
    hide Init, Inv, IdsInv, Run, Next, Call, TermsPart;
    if ops != [] {
      NotYet(s, ops, id);
      NoExtraYet(s, ops[..|ops| - 1], id);
    }
  }

  /** Before its creation no successful call is about a campaign. */
  lemma NotYet(s: State, ops: seq<Op>, id: nat)
    requires Init(s) && ops != [] && id !in Run(s, ops).entries
    ensures id !in Run(s, ops[..|ops| - 1]).entries
    ensures Call(Run(s, ops[..|ops| - 1]), ops[|ops| - 1]).Ok? ==> !About(ops[|ops| - 1], id)
  {
    hide Init, Inv, IdsInv, Run, Next, Call, TermsPart, About;
    var t, op := Run(s, ops[..|ops| - 1]), ops[|ops| - 1];
    Reached(s, ops);
    if id in t.entries {
      StepTerms(t, op, id);
    }
    if Call(t, op).Ok? && About(op, id) {
      StepFinds(t, op, id);
    }
  }

  /** A campaign's deadline is its start plus the days asked for at creation and by its successful extension. */
  lemma {:induction false} DeadlineIsTrace(s: State, ops: seq<Op>, id: nat, c: nat)
    requires Init(s) && CreatedAt(s, ops, id, c)
    ensures id in Run(s, ops).entries
    ensures Run(s, ops).entries[id].campaign.deadline
         == At(s, ops, c).now + (ops[c].params.durationDays + ExtraDays(s, ops, id)) * SECONDS_PER_DAY
    decreases |ops|
  {
    hide Init, Inv, IdsInv, Run, Next, Call, About;
    var front := ops[..|ops| - 1];
    Reached(s, ops);
    assert front[..c] == ops[..c];
    if c == |front| {
      CreatedFresh(s, ops, id, c);
      CreatedNew(s, ops, id, c);
      NoExtraYet(s, front, id);
      assert ops[..c + 1] == ops;
    } else {
      assert CreatedAt(s, front, id, c);
      DeadlineIsTrace(s, front, id, c);
      StepTerms(Run(s, front), ops[|front|], id);
      AboutExtension(ops[|front|], id);
    }
  }

  lemma AboutExtension(op: Op, id: nat)
    ensures op.DoExtendDeadline? || op.DoSetFeeOverride? ==> (About(op, id) <==> op.id == id)
  {
  }

  lemma CreatedNew(s: State, ops: seq<Op>, id: nat, c: nat)
    requires Init(s) && CreatedAt(s, ops, id, c)
    ensures id !in At(s, ops, c).entries
  {
    hide Init, Run, EntriesInv, CountersInv, BankInv, IndexInv, ValidConfig, GlobalShares;
    ReachableInv(s, ops[..c]);
  }

  // ---- The campaign's own fee ---------------------------------------------------------------

  /** The fee of the last successful `set_campaign_fee_override` on campaign `id`. */
  function OverrideOf(s: State, ops: seq<Op>, id: nat): Option<nat> {
    if ops == [] then None
    else
      var op := ops[|ops| - 1];
      if op.DoSetFeeOverride? && op.id == id && Call(Run(s, ops[..|ops| - 1]), op).Ok? then Some(op.fee)
      else OverrideOf(s, ops[..|ops| - 1], id)
  }

  /** In every reachable state a campaign's own fee is the last one set in the run, if any. */
  lemma {:induction false} OverrideIsLastSet(s: State, ops: seq<Op>, id: nat)
    requires Init(s)
    ensures id in Run(s, ops).entries ==> Run(s, ops).entries[id].campaign.feeOverride == OverrideOf(s, ops, id)
    ensures id !in Run(s, ops).entries ==> OverrideOf(s, ops, id) == None
    decreases |ops|
  {
    hide Init, Inv, IdsInv, Run, Next, Call, About;
    if ops == [] {
      NothingAtStart(s);
      RunsNothing(s);
    } else {
      var t, op := Run(s, ops[..|ops| - 1]), ops[|ops| - 1];
      OverrideIsLastSet(s, ops[..|ops| - 1], id);
      Reached(s, ops);
      AboutExtension(op, id);
      if id in t.entries {
        StepTerms(t, op, id);
      } else if id in Run(s, ops).entries {
        StepCreates(t, op, id);
      } else {
        NotYet(s, ops, id);
      }
    }
  }

  // ---- Personal caps ------------------------------------------------------------------------

  /** The cap `who` last set for themselves, unless they removed it or were refunded since. */
  function CapOf(s: State, ops: seq<Op>, id: nat, who: Address): Option<int> {
    if ops == [] then None
    else
      var op, before := ops[|ops| - 1], CapOf(s, ops[..|ops| - 1], id, who);
      if Call(Run(s, ops[..|ops| - 1]), op).Err? then before
      else
        match op
        case DoSetPersonalCap(x, w, cap) => if x == id && w == who then Some(cap) else before
        case DoRemovePersonalCap(x, w) => if x == id && w == who then None else before
        case DoClaimRefund(x, w) => if x == id && w == who then None else before
        case _ => before
  }

  function CapIn(e: Entry, who: Address): Option<int> {
    if who in e.ledger.personalCaps then Some(e.ledger.personalCaps[who]) else None
  }

  lemma {:induction false} CapIsTrace(s: State, ops: seq<Op>, id: nat, who: Address)
    requires Init(s)
    ensures id in Run(s, ops).entries ==> CapIn(Run(s, ops).entries[id], who) == CapOf(s, ops, id, who)
    ensures id !in Run(s, ops).entries ==> CapOf(s, ops, id, who) == None
    decreases |ops|
  {
    hide Init, Inv, IdsInv, Run, Next, Call;
    if ops == [] {
      NothingAtStart(s);
      RunsNothing(s);
    } else {
      var t, op := Run(s, ops[..|ops| - 1]), ops[|ops| - 1];
      CapIsTrace(s, ops[..|ops| - 1], id, who);
      Reached(s, ops);
      if id in t.entries {
        StepLedger(t, op, id);
      } else if id in Run(s, ops).entries {
        StepCreates(t, op, id);
      } else {
        NotYet(s, ops, id);
      }
    }
  }

  // ---- Owners -------------------------------------------------------------------------------

  /** Creator and pending creator as the run's creation and transfers leave them. */
  function OwnersOf(s: State, ops: seq<Op>, id: nat): Option<(Address, Option<Address>)> {
    if ops == [] then None
    else
      var t, op, before := Run(s, ops[..|ops| - 1]), ops[|ops| - 1], OwnersOf(s, ops[..|ops| - 1], id);
      if Call(t, op).Err? then before
      else if op.DoCreate? then (if id == t.counters.campaigns + 1 then Some((op.params.creator, None)) else before)
      else if before.None? then None
      else
        match op
        case DoInitiateTransfer(x, to) => if x == id then Some((before.value.0, Some(to))) else before
        case DoAcceptTransfer(x) => if x == id then Some((before.value.1.GetOr(before.value.0), None)) else before
        case DoCancelTransfer(x) => if x == id then Some((before.value.0, None)) else before
        case _ => before
  }

  function OwnersIn(s: State, id: nat): Option<(Address, Option<Address>)> {
    if id in s.entries then Some((s.entries[id].campaign.creator, s.entries[id].campaign.pendingCreator)) else None
  }

  /** A campaign's creator is who created it or accepted the last offer made and not withdrawn. */
  lemma {:induction false} OwnersAreTrace(s: State, ops: seq<Op>, id: nat)
    requires Init(s)
    ensures OwnersIn(Run(s, ops), id) == OwnersOf(s, ops, id)
    decreases |ops|
  {
    hide Init, Inv, IdsInv, Run, Next, Call;
    if ops == [] {
      NothingAtStart(s);
      RunsNothing(s);
    } else {
      var t, op := Run(s, ops[..|ops| - 1]), ops[|ops| - 1];
      OwnersAreTrace(s, ops[..|ops| - 1], id);
      Reached(s, ops);
      if id in t.entries {
        StepOwner(t, op, id);
        NextIdFree(t, id);
      } else if id in Run(s, ops).entries {
        StepCreates(t, op, id);
      } else if op.DoCreate? && Call(t, op).Ok? {
        CallIsCreate(t, op.params, op.token);
        CreateFresh(t, op.params, op.token);
        NextIs(t, op);
      }
    }
  }

  lemma NextIdFree(s: State, id: nat)
    requires IdsInv(s) && id in s.entries
    ensures id != s.counters.campaigns + 1
  {
  }

  lemma NextIs(s: State, op: Op)
    requires Call(s, op).Ok?
    ensures Next(s, op) == Call(s, op).value
  {
    hide Call;
  }

  // ---- Milestones ---------------------------------------------------------------------------

  /** Milestones of campaign `id` the admin's successful calls have verified. */
  function VerifiedIn(s: State, ops: seq<Op>, id: nat): set<nat> {
    if ops == [] then {}
    else
      var op := ops[|ops| - 1];
      VerifiedIn(s, ops[..|ops| - 1], id)
      + if op.DoVerifyMilestone? && op.id == id && Call(Run(s, ops[..|ops| - 1]), op).Ok? then {op.mid} else {}
  }

  /** Milestones of campaign `id` the creator's successful calls have claimed. */
  function ClaimedIn(s: State, ops: seq<Op>, id: nat): set<nat> {
    if ops == [] then {}
    else
      var op := ops[|ops| - 1];
      ClaimedIn(s, ops[..|ops| - 1], id)
      + if op.DoClaimMilestone? && op.id == id && Call(Run(s, ops[..|ops| - 1]), op).Ok? then {op.mid} else {}
  }

  /** The list the creator's successful call stored. */
  function ListIn(s: State, ops: seq<Op>, id: nat): seq<Milestone> {
    if ops == [] then []
    else
      var op := ops[|ops| - 1];
      if op.DoSetMilestones? && op.id == id && Call(Run(s, ops[..|ops| - 1]), op).Ok? then op.list
      else ListIn(s, ops[..|ops| - 1], id)
  }

  /** `list'` is `list` with exactly the milestones in `verified` verified. */
  predicate VerifiedAs(list: seq<Milestone>, verified: set<nat>, list': seq<Milestone>) {
    && |list'| == |list|
    && forall k | 0 <= k < |list| :: list'[k] == list[k].(verified := list[k].id in verified)
  }

  /** In every reachable state the stored milestones are those set, verified by the admin's calls and claimed by the creator's. */
  lemma {:induction false} MilestonesAreTrace(s: State, ops: seq<Op>, id: nat)
    requires Init(s)
    ensures id in Run(s, ops).entries ==>
              var ms := Run(s, ops).entries[id].milestones;
              && VerifiedAs(ListIn(s, ops, id), VerifiedIn(s, ops, id), ms.list)
              && (ms.list == [] ==> VerifiedIn(s, ops, id) == {})
              && ms.claimed == ClaimedIn(s, ops, id)
    ensures id !in Run(s, ops).entries ==> ListIn(s, ops, id) == [] && VerifiedIn(s, ops, id) == {} && ClaimedIn(s, ops, id) == {}
    decreases |ops|
  {
    hide Init, Inv, IdsInv, Run, Next, Call, HasVerified;
    if ops == [] {
      NothingAtStart(s);
      RunsNothing(s);
    } else {
      var t, op := Run(s, ops[..|ops| - 1]), ops[|ops| - 1];
      MilestonesAreTrace(s, ops[..|ops| - 1], id);
      Reached(s, ops);
      if id in t.entries {
        StepMilestone(t, op, id);
      } else if id in Run(s, ops).entries {
        StepCreates(t, op, id);
      } else {
        NotYet(s, ops, id);
      }
    }
  }

  lemma {:induction false} VerifiedByCall(s: State, ops: seq<Op>, id: nat, mid: nat) returns (i: nat)
    requires mid in VerifiedIn(s, ops, id)
    ensures Succeeds(s, ops, i) && ops[i].DoVerifyMilestone? && ops[i].id == id && ops[i].mid == mid
    decreases |ops|
  {
    hide Run, Call;
    var front := ops[..|ops| - 1];
    if mid in VerifiedIn(s, front, id) {
      i := VerifiedByCall(s, front, id, mid);
      assert ops[..i] == front[..i];
    } else {
      i := |front|;
    }
  }

  lemma {:induction false} ClaimedByCall(s: State, ops: seq<Op>, id: nat, i: nat)
    requires Succeeds(s, ops, i) && ops[i].DoClaimMilestone? && ops[i].id == id
    ensures ops[i].mid in ClaimedIn(s, ops, id)
    decreases |ops|
  {
    hide Run, Call;
    var front := ops[..|ops| - 1];
    assert ops[..i] == front[..i];
    if i < |front| {
      ClaimedByCall(s, front, id, i);
    }
  }

  lemma VerifierIsAdmin(s: State, admin: Address, id: nat, mid: nat)
    requires Call(s, DoVerifyMilestone(admin, id, mid)).Ok?
    ensures admin == s.config.admin
  {
    hide CallEscrow, CallVote, CallRegistry, CallSetting, MarkVerified;
  }

  /** A milestone is paid only after a successful verification by the admin of that moment, and only once. */
  lemma PaidOnceVerified(s: State, ops: seq<Op>, id: nat, mid: nat, j: nat) returns (i: nat)
    requires Init(s) && Succeeds(s, ops, j) && ops[j] == DoClaimMilestone(id, mid)
    ensures i < j && Succeeds(s, ops, i) && ops[i] == DoVerifyMilestone(At(s, ops, i).config.admin, id, mid)
    ensures forall k | 0 <= k < j && ops[k] == DoClaimMilestone(id, mid) :: !Succeeds(s, ops, k)
  {
    hide Init, Inv, IdsInv, Run, Next, Call, VerifiedIn, ClaimedIn, ListIn;
    var front, t := ops[..j], At(s, ops, j);
    Reached(s, ops[..j + 1]);
    assert ops[..j + 1][..j] == front;
    MilestonesAreTrace(s, front, id);
    StepFinds(t, ops[j], id);
    StepMilestone(t, ops[j], id);
    i := VerifiedByCall(s, front, id, mid);
    assert front[..i] == ops[..i];
    VerifierIsAdmin(At(s, ops, i), ops[i].admin, id, mid);
    forall k | 0 <= k < j && ops[k] == DoClaimMilestone(id, mid)
      ensures !Succeeds(s, ops, k)
    {
      assert front[..k] == ops[..k];
      if Succeeds(s, ops, k) {
        ClaimedByCall(s, front, id, k);
      }
    }
  }

  // ---- Contributions ------------------------------------------------------------------------

  function AmountTo(items: seq<Item>, id: nat): int {
    if items == [] then 0
    else AmountTo(items[..|items| - 1], id) + if items[|items| - 1].0 == id then items[|items| - 1].1 else 0
  }

  /** What the call, if it succeeds, contributes to campaign `id` for `who`. */
  function Gift(op: Op, id: nat, who: Address): int {
    match op
    case DoContribute(x, w, amount) => if x == id && w == who then amount else 0
    case DoBatchContribute(w, items) => if w == who then AmountTo(items, id) else 0
    case _ => 0
  }

  /** All that `who` successfully contributed to campaign `id`. */
  function GivenBy(s: State, ops: seq<Op>, id: nat, who: Address): int {
    if ops == [] then 0
    else
      GivenBy(s, ops[..|ops| - 1], id, who)
      + if Call(Run(s, ops[..|ops| - 1]), ops[|ops| - 1]).Ok? then Gift(ops[|ops| - 1], id, who) else 0
  }

  /** The same since their last refund. */
  function HeldFor(s: State, ops: seq<Op>, id: nat, who: Address): int {
    if ops == [] then 0
    else
      var op, before := ops[|ops| - 1], HeldFor(s, ops[..|ops| - 1], id, who);
      if Call(Run(s, ops[..|ops| - 1]), op).Err? then before
      else if op == DoClaimRefund(id, who) then 0
      else before + Gift(op, id, who)
  }

  /** `who` gave `amount`, nobody gave anything else. */
  ghost predicate Gave(l: Ledger, l': Ledger, giver: Address, amount: int) {
    forall who: Address ::
      && Get(l'.lifetime, who) == Get(l.lifetime, who) + (if who == giver then amount else 0)
      && Get(l'.contributions, who) == Get(l.contributions, who) + (if who == giver then amount else 0)
  }

  lemma ItemGives(s: State, who: Address, x: nat, amount: int, id: nat)
    requires ContributeItem(s, who, x, amount).Ok? && id in s.entries
    ensures var s' := ContributeItem(s, who, x, amount).value;
            id in s'.entries && Gave(s.entries[id].ledger, s'.entries[id].ledger, who, if x == id then amount else 0)
  {
    hide ContributeItem, CheckCaps, CheckPersonalCap, BurstGuard;
    ContributionProofs.ItemShape(s, who, x, amount);
  }

  lemma {:induction false} ItemsGive(s: State, who: Address, items: seq<Item>, id: nat)
    requires ContributeItems(s, who, items).Ok? && id in s.entries
    ensures var s' := ContributeItems(s, who, items).value;
            id in s'.entries && Gave(s.entries[id].ledger, s'.entries[id].ledger, who, AmountTo(items, id))
    decreases |items|
  {
    hide ContributeItem;
    if items != [] {
      var front, last := items[..|items| - 1], items[|items| - 1];
      ItemsGive(s, who, front, id);
      ItemGives(ContributeItems(s, who, front).value, who, last.0, last.1, id);
    }
  }

  lemma CallGives(s: State, op: Op, id: nat, who: Address)
    requires id in s.entries && Call(s, op).Ok? && (op.DoContribute? || op.DoBatchContribute?)
    ensures var s' := Call(s, op).value;
            && id in s'.entries
            && Get(s'.entries[id].ledger.lifetime, who) == Get(s.entries[id].ledger.lifetime, who) + Gift(op, id, who)
            && Get(s'.entries[id].ledger.contributions, who) == Get(s.entries[id].ledger.contributions, who) + Gift(op, id, who)
  {
    hide CallPayout, CallVote, CallRegistry, CallSetting, ContributeItem, ContributeItems, Transfer, Affordable, Settle, Owed;
    if op.DoContribute? {
      ItemGives(s, op.who, op.id, op.amount, id);
    } else {
      ItemsGive(s, op.who, op.items, id);
    }
  }

  lemma StepGives(s: State, op: Op, id: nat, who: Address)
    requires IdsInv(s) && id in s.entries && Call(s, op).Ok?
    ensures id in Next(s, op).entries
    ensures var l, l' := s.entries[id].ledger, Next(s, op).entries[id].ledger;
            && Get(l'.lifetime, who) == Get(l.lifetime, who) + Gift(op, id, who)
            && Get(l'.contributions, who)
               == if op == DoClaimRefund(id, who) then 0 else Get(l.contributions, who) + Gift(op, id, who)
  {
    hide Call, IdsInv;
    if op.DoContribute? || op.DoBatchContribute? {
      CallGives(s, op, id, who);
    } else {
      StepLedger(s, op, id);
    }
  }

  lemma NobodyGives(s: State, op: Op, id: nat, who: Address)
    requires Call(s, op).Ok? && id !in s.entries
    ensures Gift(op, id, who) == 0 && op != DoClaimRefund(id, who)
  {
    hide Call;
    if op.DoBatchContribute? {
      BatchFinds(s, op.who, op.items, id);
    } else if About(op, id) {
      StepFinds(s, op, id);
    }
  }

  lemma BatchFinds(s: State, who: Address, items: seq<Item>, id: nat)
    requires Call(s, DoBatchContribute(who, items)).Ok? && id !in s.entries
    ensures AmountTo(items, id) == 0
  {
    hide CallPayout, CallVote, CallRegistry, CallSetting, ContributeItems, Affordable, Settle, Owed;
    ItemsFind(s, who, items, id);
  }

  lemma {:induction false} ItemsFind(s: State, who: Address, items: seq<Item>, id: nat)
    requires ContributeItems(s, who, items).Ok? && id !in s.entries
    ensures AmountTo(items, id) == 0 && id !in ContributeItems(s, who, items).value.entries
    decreases |items|
  {
    hide ContributeItem;
    if items != [] {
      var front, last := items[..|items| - 1], items[|items| - 1];
      ItemsFind(s, who, front, id);
      ItemFunds(ContributeItems(s, who, front).value, who, last.0, last.1);
    }
  }

  /**
   In every reachable state the lifetime contribution of an address is the sum of its successful contributions, batch
   items included, and its current one the sum of those since its refund.
   */
  lemma {:induction false} ContributionsAreTrace(s: State, ops: seq<Op>, id: nat, who: Address)
    requires Init(s)
    ensures id in Run(s, ops).entries ==>
              var l := Run(s, ops).entries[id].ledger;
              Get(l.lifetime, who) == GivenBy(s, ops, id, who) && Get(l.contributions, who) == HeldFor(s, ops, id, who)
    ensures id !in Run(s, ops).entries ==> GivenBy(s, ops, id, who) == 0 == HeldFor(s, ops, id, who)
    decreases |ops|
  {
    hide Init, Inv, IdsInv, Run, Next, Call, Gift;
    if ops == [] {
      NothingAtStart(s);
      RunsNothing(s);
    } else {
      var t, op := Run(s, ops[..|ops| - 1]), ops[|ops| - 1];
      ContributionsAreTrace(s, ops[..|ops| - 1], id, who);
      Reached(s, ops);
      RefusedStays(t, op);
      if id in t.entries && Call(t, op).Ok? {
        StepGives(t, op, id, who);
      } else if id !in t.entries && Call(t, op).Ok? {
        NobodyGives(t, op, id, who);
        if id in Run(s, ops).entries {
          StepCreates(t, op, id);
        }
      }
    }
  }

  lemma RefusedStays(s: State, op: Op)
    ensures Call(s, op).Err? ==> Next(s, op) == s
  {
    hide Call;
  }
}
