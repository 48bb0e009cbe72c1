/** The limit on bursts over runs: at one ledger number a campaign past half its goal takes at most ten contributions. */
module BurstRuns {
  import opened Types
  import opened State
  import opened Contributions
  import opened Invariants
  import opened Runs
  import opened Frames
  import opened Acceptance
  import BatchProofs
  import ContributionProofs
  import Traces
  import Governance

  function CountTo(items: seq<Item>, id: nat): nat {
    if items == [] then 0 else CountTo(items[..|items| - 1], id) + if items[|items| - 1].0 == id then 1 else 0
  }

  /** How many contributions to campaign `id` the call makes, batch items included. */
  function GiftsTo(op: Op, id: nat): nat {
    match op
    case DoContribute(x, _, _) => if x == id then 1 else 0
    case DoBatchContribute(_, items) => CountTo(items, id)
    case _ => 0
  }

  /** Contributions to campaign `id` by the successful calls from the `i`-th to before the `j`-th. */
  function GiftsIn(s: State, ops: seq<Op>, id: nat, i: nat, j: nat): nat
    requires i <= j <= |ops|
    decreases j - i
  {
    if i == j then 0 else GiftsIn(s, ops, id, i, j - 1) + if Succeeds(s, ops, j - 1) then GiftsTo(ops[j - 1], id) else 0
  }

  /** At ledger number `n`, `gifts` more contributions were counted, and with any of them at most ten in all. */
  predicate Counts(n: nat, e: Entry, e': Entry, gifts: nat) {
    && OverHalf(e'.campaign) && e'.campaign.fundingGoal == e.campaign.fundingGoal
    && Burst(e'.ledger, n) == Burst(e.ledger, n) + gifts
    && (0 < gifts ==> Burst(e'.ledger, n) <= 10)
  }

  lemma ItemCounts(s: State, who: Address, x: nat, amount: int, id: nat)
    requires ContributeItem(s, who, x, amount).Ok? && id in s.entries
    requires OverHalf(s.entries[id].campaign) && 0 < s.entries[id].campaign.fundingGoal
    ensures var s' := ContributeItem(s, who, x, amount).value;
            && id in s'.entries && s'.ledgerSeq == s.ledgerSeq
            && Counts(s.ledgerSeq, s.entries[id], s'.entries[id], if x == id then 1 else 0)
  {
    hide ContributeItem, CheckCaps, CheckPersonalCap, BurstGuard, Burst;
    ContributionProofs.ItemShape(s, who, x, amount);
    if x == id {
      BurstChecked(s.entries[id].campaign, s.entries[id].ledger, s.ledgerSeq, amount);
      CountedOne(s.entries[id].ledger, s.ledgerSeq, ContributeItem(s, who, x, amount).value.entries[id].ledger);
    }
  }

  lemma CountedOne(l: Ledger, n: nat, l': Ledger)
    requires l'.burstLedger == n && l'.burstCount == Burst(l, n) + 1
    ensures Burst(l', n) == Burst(l, n) + 1
  {
  }

  lemma {:induction false} ItemsCount(s: State, who: Address, items: seq<Item>, id: nat)
    requires ContributeItems(s, who, items).Ok? && id in s.entries
    requires OverHalf(s.entries[id].campaign) && 0 < s.entries[id].campaign.fundingGoal
    ensures var s' := ContributeItems(s, who, items).value;
            && id in s'.entries && s'.ledgerSeq == s.ledgerSeq
            && Counts(s.ledgerSeq, s.entries[id], s'.entries[id], CountTo(items, id))
    decreases |items|
  {
    hide ContributeItem, Burst;
    if items != [] {
      var front, last := items[..|items| - 1], items[|items| - 1];
      ItemsCount(s, who, front, id);
      ItemCounts(ContributeItems(s, who, front).value, who, last.0, last.1, id);
    }
  }

  lemma CallCounts(s: State, op: Op, id: nat)
    requires id in s.entries && Call(s, op).Ok? && (op.DoContribute? || op.DoBatchContribute?)
    requires OverHalf(s.entries[id].campaign) && 0 < s.entries[id].campaign.fundingGoal
    ensures var s' := Call(s, op).value;
            id in s'.entries && Counts(s.ledgerSeq, s.entries[id], s'.entries[id], GiftsTo(op, id))
  {
    hide CallPayout, CallVote, CallRegistry, CallSetting, ContributeItem, ContributeItems, Transfer, Affordable, Settle, Owed, Counts;
    if op.DoContribute? {
      ItemCounts(s, op.who, op.id, op.amount, id);
    } else {
      ItemsCount(s, op.who, op.items, id);
    }
  }

  /** One step: a successful call counts its contributions to the campaign, all else leaves the count. */
  lemma StepCounts(s: State, op: Op, id: nat)
    requires Inv(s) && IdsInv(s) && id in s.entries && OverHalf(s.entries[id].campaign)
    ensures id in Next(s, op).entries
    ensures Counts(s.ledgerSeq, s.entries[id], Next(s, op).entries[id], if Call(s, op).Ok? then GiftsTo(op, id) else 0)
  {
    hide Call, Inv, IdsInv;
    GoalPositive(s, id);
    if Call(s, op).Ok? && (op.DoContribute? || op.DoBatchContribute?) {
      CallCounts(s, op, id);
      Traces.NextIs(s, op);
    } else {
      StepLedger(s, op, id);
      StepTerms(s, op, id);
    }
  }

  /** All calls from the `i`-th to before the `j`-th are made at ledger number `n`. */
  ghost predicate AtLedger(s: State, ops: seq<Op>, n: nat, i: nat, j: nat)
    requires i <= j <= |ops|
  {
    forall k | i <= k < j :: At(s, ops, k).ledgerSeq == n
  }

  /**
   Once a campaign has raised more than half its goal, the calls made at one ledger number bring it at most ten
   contributions, batch items included, however many are tried.
   */
  lemma {:induction false} BurstBound(s: State, ops: seq<Op>, id: nat, n: nat, i: nat, j: nat)
    requires Init(s) && i <= j <= |ops| && AtLedger(s, ops, n, i, j)
    requires id in At(s, ops, i).entries && OverHalf(At(s, ops, i).entries[id].campaign)
    ensures id in At(s, ops, j).entries
    ensures Counts(n, At(s, ops, i).entries[id], At(s, ops, j).entries[id], GiftsIn(s, ops, id, i, j))
    ensures GiftsIn(s, ops, id, i, j) <= 10
    decreases j - i
  {
    hide Init, Inv, IdsInv, Run, Next, Call, Burst;
    if i < j {
      BurstBound(s, ops, id, n, i, j - 1);
      Reached(s, ops[..j]);
      assert ops[..j][..j - 1] == ops[..j - 1];
      StepCounts(At(s, ops, j - 1), ops[j - 1], id);
    }
  }

  /** After ten of them the next contribution, otherwise welcome, is refused with `ContractPaused`; no batch with one succeeds either. */
  lemma EleventhRefused(s: State, ops: seq<Op>, id: nat, i: nat, who: Address, amount: int, op: Op)
    requires Init(s) && i <= |ops| && AtLedger(s, ops, Run(s, ops).ledgerSeq, i, |ops|)
    requires id in At(s, ops, i).entries && OverHalf(At(s, ops, i).entries[id].campaign)
    requires GiftsIn(s, ops, id, i, |ops|) == 10
    ensures Contribute(Run(s, ops), id, who, amount).Err?
    ensures Welcome(Run(s, ops), id, who, amount) ==> Contribute(Run(s, ops), id, who, amount) == Err(ContractPaused)
    ensures 0 < GiftsTo(op, id) ==> Call(Run(s, ops), op).Err?
  {
    hide Init, Inv, IdsInv, Run, Next, Call, Contribute, Welcome, RoomToAccount, Burst;
    var t := Run(s, ops);
    BurstBound(s, ops, id, t.ledgerSeq, i, |ops|);
    assert ops[..|ops|] == ops;
    ReachableInv(s, ops);
    ContributeIff(t, id, who, amount);
    IdsOf(t);
    StepCounts(t, op, id);
  }

  lemma IdsOf(s: State)
    requires Inv(s)
    ensures IdsInv(s)
  {
    hide EntriesInv, IdsInv, CountersInv, BankInv, IndexInv, Governance.ValidConfig, GlobalShares;
  }
}
