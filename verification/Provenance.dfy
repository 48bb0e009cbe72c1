/**
 Where a campaign's text and fee recipient come from on a run: the text from its last edit, the recipient from the admin
 at its first contribution. With that, which text the votes behind a verification were cast on, and who gets a fee.
 */
module Provenance {
  import opened Types
  import opened State
  import opened Contributions
  import opened Payouts
  import opened MilestonePayouts
  import opened RevenueSharing
  import opened Governance
  import opened Registry
  import opened Invariants
  import opened Runs
  import opened VoteTheorems
  import opened Frames
  import GovernanceProofs
  import EscrowTheorems
  import Payments

  // ---- The text -----------------------------------------------------------------------------

  /** The text a successful edit of campaign `id` writes. */
  function Edited(s: State, op: Op, id: nat): Option<string> {
    match op
    case DoUpdateDescription(x, text) => if x == id && Call(s, op).Ok? then Some(text) else None
    case _ => None
  }

  /** What the last successful edit from the `i`-th call on wrote. */
  function LastEdit(s: State, ops: seq<Op>, id: nat, i: nat): Option<string>
    requires i <= |ops|
    decreases |ops|
  {
    if |ops| == i then None
    else if Edited(Run(s, ops[..|ops| - 1]), ops[|ops| - 1], id).Some? then Edited(Run(s, ops[..|ops| - 1]), ops[|ops| - 1], id)
    else LastEdit(s, ops[..|ops| - 1], id, i)
  }

  lemma NextText(s: State, op: Op, id: nat)
    requires IdsInv(s) && id in s.entries
    ensures id in Next(s, op).entries
    ensures Next(s, op).entries[id].campaign.description == Edited(s, op, id).GetOr(s.entries[id].campaign.description)
  {
    hide IdsInv, Call;
    StepTerms(s, op, id);
  }

  /** On every run a campaign's text is what its last successful edit wrote. */
  lemma {:induction false} TextIsLastEdit(s: State, ops: seq<Op>, id: nat, i: nat)
    requires Init(s) && i <= |ops| && id in At(s, ops, i).entries
    ensures id in Run(s, ops).entries
    ensures Run(s, ops).entries[id].campaign.description == LastEdit(s, ops, id, i).GetOr(At(s, ops, i).entries[id].campaign.description)
    decreases |ops|
  {
    hide Init, Inv, Run, Next, Edited, IdsInv;
    if |ops| == i {
      assert ops[..i] == ops;
    } else {
      var front := ops[..|ops| - 1];
      assert front[..i] == ops[..i];
      TextIsLastEdit(s, front, id, i);
      Reached(s, ops);
      NextText(Run(s, front), ops[|ops| - 1], id);
    }
  }

  // ---- The text the votes were cast on ------------------------------------------------------

  /** The `k`-th call is the vote of `who` on campaign `id`. */
  predicate VotesAt(s: State, ops: seq<Op>, id: nat, who: Address, k: nat) {
    Succeeds(s, ops, k) && ops[k].DoCastVote? && ops[k].id == id && ops[k].who == who
  }

  /** Every vote a tally counts was cast at some call of the run. */
  lemma {:induction false} CountedVoteWasCast(s: State, ops: seq<Op>, id: nat, who: Address) returns (k: nat)
    requires who in BallotsOf(s, ops, id)
    ensures VotesAt(s, ops, id, who, k) && ops[k].approve == BallotsOf(s, ops, id)[who]
    decreases |ops|
  {
    hide Run, Call;
    var front, last := ops[..|ops| - 1], ops[|ops| - 1];
    if last.DoCastVote? && last.id == id && last.who == who && Call(Run(s, front), last).Ok? && id in Run(s, front).entries {
      k := |front|;
    } else {
      k := CountedVoteWasCast(s, front, id, who);
      assert ops[..k] == front[..k];
    }
  }

  /** The `k`-th call is the vote of `who` that the tally counts. */
  ghost predicate Counts(s: State, ops: seq<Op>, id: nat, who: Address, k: nat) {
    k < |ops| && who in BallotsOf(s, ops, id) && VotesAt(s, ops, id, who, k)
  }

  /** The campaign's text before the `k`-th call. */
  function TextAt(s: State, ops: seq<Op>, id: nat, k: nat): Option<string>
    requires k <= |ops|
  {
    if id in At(s, ops, k).entries then Some(At(s, ops, k).entries[id].campaign.description) else None
  }

  ghost predicate NoEditFrom(s: State, ops: seq<Op>, id: nat, k: nat) {
    forall j | k <= j < |ops| :: Edited(At(s, ops, j), ops[j], id).None?
  }

  lemma {:induction false} NoEditIff(s: State, ops: seq<Op>, id: nat, k: nat)
    requires k <= |ops|
    ensures NoEditFrom(s, ops, id, k) <==> LastEdit(s, ops, id, k).None?
    decreases |ops|
  {
    hide Run, Edited;
    if k < |ops| {
      var front := ops[..|ops| - 1];
      NoEditIff(s, front, id, k);
      assert forall j | k <= j < |front| :: front[..j] == ops[..j] && front[j] == ops[j];
      assert NoEditFrom(s, ops, id, k) <==> NoEditFrom(s, front, id, k) && Edited(At(s, ops, |front|), ops[|front|], id).None? by {
        assert forall j | k <= j < |front| :: At(s, ops, j) == At(s, front, j);
      }
    }
  }

  lemma VoterSaw(s: State, ops: seq<Op>, id: nat, who: Address, k: nat)
    requires Init(s) && VotesAt(s, ops, id, who, k)
    ensures TextAt(s, ops, id, k).Some?
    ensures TextAt(s, ops, id, |ops|) == Some(LastEdit(s, ops, id, k).GetOr(TextAt(s, ops, id, k).value))
    ensures NoEditFrom(s, ops, id, k) <==> LastEdit(s, ops, id, k).None?
  {
    hide Run, Init, CastVote, CallEscrow, CallPayout, CallRegistry, CallSetting, NoEditFrom;
    VoteMarks(At(s, ops, k), id, who, ops[k].approve);
    TextIsLastEdit(s, ops, id, k);
    NoEditIff(s, ops, id, k);
    assert ops[..|ops|] == ops;
  }

  /**
   All the votes a tally counts were cast on the present text if and only if no counted vote was followed by a successful
   edit, other than one that put the text of the vote back.
   */
  lemma CountedOnPresentTextIff(s: State, ops: seq<Op>, id: nat)
    requires Init(s)
    ensures (forall who, k | Counts(s, ops, id, who, k) :: TextAt(s, ops, id, k) == TextAt(s, ops, id, |ops|))
       <==> (forall who, k | Counts(s, ops, id, who, k) ::
               NoEditFrom(s, ops, id, k) || LastEdit(s, ops, id, k) == TextAt(s, ops, id, k))
  {
    hide Init, TextAt, NoEditFrom, VotesAt, BallotsOf;
    forall who, k | Counts(s, ops, id, who, k)
      ensures TextAt(s, ops, id, k) == TextAt(s, ops, id, |ops|)
         <==> NoEditFrom(s, ops, id, k) || LastEdit(s, ops, id, k) == TextAt(s, ops, id, k)
    {
      VoterSaw(s, ops, id, who, k);
    }
  }

  /**
   An edit does not get in the way of the votes it leaves: after it the community verification succeeds if and only if it
   would have before.
   */
  lemma EditCarriesVotesIff(s: State, id: nat, text: string, s': State)
    requires Inv(s) && UpdateDescription(s, id, text) == Ok(s')
    ensures id in s.entries && id in s'.entries && s'.entries[id].campaign.description == text
    ensures VerifyWithVotes(s', id).Ok? <==> VerifyWithVotes(s, id).Ok?
  {
    hide Inv, ThresholdFor, ApprovalBps;
    GovernanceProofs.ConfigFrom(s);
    QuorumPositive(s.config);
  }

  // ---- The fee recipient --------------------------------------------------------------------

  /** The `i`-th call is the one that brings the campaign its first contribution. */
  predicate FirstFunded(s: State, ops: seq<Op>, id: nat, i: nat) {
    && i < |ops| && id in At(s, ops, i).entries && At(s, ops, i).entries[id].campaign.amountRaised == 0
    && id in At(s, ops, i + 1).entries && 0 < At(s, ops, i + 1).entries[id].campaign.amountRaised
  }

  lemma FundingPins(s: State, op: Op, id: nat)
    requires Inv(s) && Inv(Next(s, op)) && id in s.entries && s.entries[id].campaign.amountRaised == 0
    requires id in Next(s, op).entries && 0 < Next(s, op).entries[id].campaign.amountRaised
    ensures Next(s, op).entries[id].ledger.feeRecipient == Some(s.config.admin)
  {
    hide Inv, Call;
    EscrowTheorems.RecipientPinned(s, id);
    EscrowTheorems.RecipientPinned(Next(s, op), id);
    IdsFrom(s);
    StepLedger(s, op, id);
  }

  lemma IdsFrom(s: State)
    requires Inv(s)
    ensures IdsInv(s)
  {
    hide EntriesInv, IdsInv, CountersInv, BankInv, IndexInv, ValidConfig, GlobalShares;
  }

  /** In every later state the pinned recipient is the admin of the first contribution. */
  lemma RecipientIsFirstAdmin(s: State, ops: seq<Op>, id: nat, i: nat)
    requires Init(s) && FirstFunded(s, ops, id, i)
    ensures id in Run(s, ops).entries
    ensures Run(s, ops).entries[id].ledger.feeRecipient == Some(At(s, ops, i).config.admin)
  {
    hide Init, Inv, Run, Next;
    ReachableInv(s, ops[..i]);
    ReachableInv(s, ops[..i + 1]);
    AtNext(s, ops, i);
    FundingPins(At(s, ops, i), ops[i], id);
    EscrowTheorems.NothingTakenBack(s, ops, i + 1, |ops|, id);
    assert ops[..|ops|] == ops;
  }

  /**
   A withdrawal's fee goes to the admin of the first contribution, whoever is admin by then; a milestone claim's goes to
   the present admin, so to the pinned recipient if and only if the admin is still the one of the first contribution.
   */
  lemma FeeGoesTo(s: State, ops: seq<Op>, id: nat, i: nat, mid: nat)
    requires Init(s) && FirstFunded(s, ops, id, i)
    ensures var t, pinned := Run(s, ops), At(s, ops, i).config.admin;
            && (WithdrawFunds(t, id).Ok? ==>
                  var ps := Payments.PaymentsOf(t, DoWithdrawFunds(id)); |ps| == 2 && ps[0].to == pinned)
            && (ClaimMilestone(t, id, mid).Ok? ==>
                  var ps := Payments.PaymentsOf(t, DoClaimMilestone(id, mid));
                  |ps| == 2 && ps[0].amount == CheckClaim(t, id, mid).value.feePay
                  && (ps[0].to == pinned <==> t.config.admin == pinned))
  {
    hide Init, Run, Inv, CheckClaim, PayClaim, SplitOf, CheckWithdraw, FirstFunded;
    RecipientIsFirstAdmin(s, ops, id, i);
  }
}
