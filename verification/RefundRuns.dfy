/** Refunds over runs: everything a contributor gave to a failed campaign comes back on request. */
module RefundRuns {
  import opened Types
  import opened State
  import opened Contributions
  import opened Invariants
  import opened Runs
  import opened Traces
  import opened Payments
  import opened Acceptance
  import Solvency

  /**
   On every run, while the token's campaigns are clean, whoever gave to a campaign that failed is refunded on request,
   unless the contract is paused or the total's bookkeeping has no room, and gets the whole of what they gave.
   */
  lemma DueRefundIsPaid(s: State, ops: seq<Op>, id: nat, who: Address)
    requires Init(s) && id in Run(s, ops).entries
    requires Solvency.CleanToken(Run(s, ops), Run(s, ops).entries[id].terms.token)
    requires Failed(Run(s, ops).now, Run(s, ops).entries[id].campaign) && HeldFor(s, ops, id, who) != 0
    ensures var t, due, r := Run(s, ops), HeldFor(s, ops, id, who), ClaimRefund(Run(s, ops), id, who);
            && (r.Ok? <==> !t.paused && (t.entries[id].campaign.isCancelled || FitsI128(t.totalRaised - due)))
            && (r.Ok? ==> Pays(t.bank, r.value.bank, [Payment(t.entries[id].terms.token, SELF, who, due)]))
  {
    hide Init, Inv, Run, Call, ClaimRefund, HeldFor, GivenBy, Pays, Solvency.CleanToken, Failed;
    ReachableInv(s, ops);
    ContributionsAreTrace(s, ops, id, who);
    DueRefundGoesThrough(Run(s, ops), id, who);
    RefundPays(Run(s, ops), id, who);
  }

  /** Nobody is refunded anything else: a refund needs a failed campaign and something given to it since the last refund. */
  lemma OnlyDueRefunds(s: State, ops: seq<Op>, id: nat, who: Address)
    requires Init(s) && id in Run(s, ops).entries && ClaimRefund(Run(s, ops), id, who).Ok?
    ensures Failed(Run(s, ops).now, Run(s, ops).entries[id].campaign)
    ensures 0 < HeldFor(s, ops, id, who)
    ensures HeldFor(s, ops + [DoClaimRefund(id, who)], id, who) == 0
  {
    hide Init, Inv, Run, Call, ClaimRefund, GivenBy;
    ReachableInv(s, ops);
    ContributionsAreTrace(s, ops, id, who);
    RefundIff(Run(s, ops), id, who);
    EffectiveFits(Run(s, ops), id, who);
    var op := DoClaimRefund(id, who);
    assert (ops + [op])[..|ops|] == ops;
    CallIsRefund(Run(s, ops), id, who);
  }

  lemma CallIsRefund(s: State, id: nat, who: Address)
    ensures Call(s, DoClaimRefund(id, who)) == ClaimRefund(s, id, who)
  {
    hide CallPayout, CallVote, CallRegistry, CallSetting, ClaimRefund;
  }
}
