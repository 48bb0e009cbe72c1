/** Whose votes a tally counts, over whole runs with edits, re-verification and purges. */
module VoteTheorems {
  import opened Types
  import opened State
  import opened Contributions
  import opened Payouts
  import opened MilestonePayouts
  import opened RevenueSharing
  import opened Governance
  import opened Registry
  import opened Invariants
  import opened Compose
  import opened Runs
  import opened GovernanceProofs
  import History

  // ---- One vote per address -----------------------------------------------------------------

  lemma VoteMarks(s: State, id: nat, who: Address, approve: bool)
    requires CastVote(s, id, who, approve).Ok?
    ensures id in s.entries && s.entries[id].campaign.isActive && who !in s.entries[id].votes.voted
    ensures var s' := Next(s, DoCastVote(id, who, approve)); id in s'.entries && who in s'.entries[id].votes.voted
  {
    hide CallEscrow, CallPayout, CallRegistry, CallSetting;
  }

  /** Over any run, edits, re-verifications and purges included, an address votes on a campaign at most once. */
  lemma VoteOnce(s: State, ops: seq<Op>, i: nat, j: nat, id: nat, who: Address, first: bool, second: bool)
    requires Init(s) && i < j && j < |ops|
    requires Succeeds(s, ops, i) && ops[i] == DoCastVote(id, who, first) && ops[j] == DoCastVote(id, who, second)
    ensures !Succeeds(s, ops, j)
  {
    hide Inv, Run, Next, CastVote, CallEscrow, CallPayout, CallRegistry, CallSetting;
    InitInv(s);
    VoteMarks(At(s, ops, i), id, who, first);
    AtNext(s, ops, i);
    RunEvolves(s, ops, i + 1, j);
    if Succeeds(s, ops, j) {
      VoteMarks(At(s, ops, j), id, who, second);
    }
  }

  // ---- What a tally counts ------------------------------------------------------------------

  /** How one successful call changes the votes that count for campaign `id`. */
  function BallotsStep(s: State, op: Op, id: nat, ballots: map<Address, bool>): map<Address, bool> {
    if Call(s, op).Err? || id !in s.entries then ballots
    else
      match op
      case DoCastVote(x, who, approve) => if x == id then ballots[who := approve] else ballots
      case DoUpdateDescription(x, _) =>
        if x == id && s.entries[id].campaign.isVerified then map[] else ballots
      case DoCancel(x) => if x == id then map[] else ballots
      case DoAdminCancel(_, x, _) => if x == id then map[] else ballots
      case DoPurge(x, _, finalize) => if x == id && finalize then map[] else ballots
      case _ => ballots
  }

  /** The successful votes on campaign `id` since its tally was last cleared. */
  function BallotsOf(s: State, ops: seq<Op>, id: nat): map<Address, bool> {
    if ops == [] then map[]
    else BallotsStep(Run(s, ops[..|ops| - 1]), ops[|ops| - 1], id, BallotsOf(s, ops[..|ops| - 1], id))
  }

  lemma BallotsFollow(s: State, op: Op, id: nat, a: Audit)
    ensures History.HistoryStep(s, op, id, a).ballots == BallotsStep(s, op, id, a.ballots)
  {
    hide Call, LastClaimant, CheckClaim;
  }

  /** The votes behind a tally are the successful votes since it was last cleared. */
  lemma {:induction false} BallotsAreTrace(s: State, ops: seq<Op>, id: nat)
    requires Init(s)
    ensures AuditOf(Run(s, ops), id).ballots == BallotsOf(s, ops, id)
    decreases |ops|
  {
    hide Inv, Next, BallotsStep, Init, History.HistoryStep, History.RecordsFor, Call;
    if ops == [] {
      History.StartsEmpty(s, id);
    } else {
      var t, op := Run(s, ops[..|ops| - 1]), ops[|ops| - 1];
      BallotsAreTrace(s, ops[..|ops| - 1], id);
      History.ReachableIds(s, ops[..|ops| - 1]);
      History.CallTracks(t, op, id);
      BallotsFollow(t, op, id, AuditOf(t, id));
    }
  }

  /**
   In every reachable state a campaign's tally is the number of distinct addresses whose vote succeeded since the
   tally was last cleared, for and against, and the weights mirror the counts.
   */
  lemma TallyCountsTrace(s: State, ops: seq<Op>, id: nat)
    requires Init(s) && id in Run(s, ops).entries
    ensures var v := Run(s, ops).entries[id].votes;
            && v.approve == |Voters(BallotsOf(s, ops, id), true)|
            && v.reject == |Voters(BallotsOf(s, ops, id), false)|
            && v.approveWeight == v.approve && v.rejectWeight == v.reject
  {
    hide Inv, Run, BallotsOf;
    ReachableInv(s, ops);
    BallotsAreTrace(s, ops, id);
    EditFrom(Run(s, ops), id);
  }

  // ---- verify_with_votes --------------------------------------------------------------------

  /** The floored basis-point test is the exact comparison. */
  lemma ThresholdExact(v: Votes, threshold: nat)
    requires 0 < v.approve + v.reject
    ensures threshold <= ApprovalBps(v) <==> threshold * (v.approve + v.reject) <= v.approve * BPS
  {
    var n, d := v.approve * BPS, v.approve + v.reject;
    assert n == d * (n / d) + n % d;
    if threshold <= n / d {
      assert threshold * d <= n / d * d;
    } else {
      assert (n / d + 1) * d <= threshold * d;
    }
  }

  lemma VoterCount(ballots: map<Address, bool>)
    ensures |Voters(ballots, true)| + |Voters(ballots, false)| == |ballots|
  {
    assert Voters(ballots, true) + Voters(ballots, false) == ballots.Keys;
    assert Voters(ballots, true) !! Voters(ballots, false);
    assert |ballots.Keys| == |ballots|;
  }

  /**
   A successful community verification rests on at least a quorum of distinct voters since the last revocation, of whom
   the approving share meets the threshold of the campaign's category, or else the general one, exactly.
   */
  lemma VerificationRestsOnFreshQuorum(s: State, ops: seq<Op>, id: nat)
    requires Init(s) && id in Run(s, ops).entries && VerifyWithVotes(Run(s, ops), id).Ok?
    ensures var ballots, t := BallotsOf(s, ops, id), Run(s, ops);
            var category := t.entries[id].campaign.category;
            var needed := if category in t.config.categoryApprovalBps then t.config.categoryApprovalBps[category] else t.config.approvalBps;
            && t.config.quorum <= |ballots|
            && needed * |ballots| <= |Voters(ballots, true)| * BPS
  {
    hide Inv, Run, BallotsOf, Init, ApprovalBps;
    TallyCountsTrace(s, ops, id);
    VoterCount(BallotsOf(s, ops, id));
    ReachableInv(s, ops);
    ConfigFrom(Run(s, ops));
    QuorumPositive(Run(s, ops).config);
    var t := Run(s, ops);
    ThresholdExact(t.entries[id].votes, ThresholdFor(t.config, t.entries[id].campaign.category));
  }

  lemma QuorumPositive(config: Config)
    requires ValidConfig(config)
    ensures 1 <= config.quorum
  {
  }
}
