# Proof of Heart: escrow, payouts, indexes and votes

A Dafny model of the Proof of Heart crowdfunding contract and proofs about it. Contributors fund campaigns in a
token; a funded campaign's creator withdraws at once, or milestone by milestone, less a platform fee and a vesting
reserve; a failed or cancelled campaign refunds; a funded campaign may share revenue with its contributors.
Campaigns are verified by the admin or by community votes and are found through bucketed indexes by creator,
category and tag.

## How it is built

- `Types`, `State`: constants, errors, records. `Entry` groups every storage key that carries a campaign id, `Index`
  the keys of the three list indexes, `Counters` the platform counters. `Audit` holds history variables (payouts made,
  terms each milestone claim saw, votes that count, the revenue pool at each claim); no operation reads them, and in
  the class they are ghost.
- `Contributions`, `Payouts`, `MilestonePayouts`, `RevenueSharing`, `Governance`, `Registry`: each entry point as a
  function from the state before the call to `Ok` of the state after, or the error the code returns, with the checks
  in the code's order.
- `Contract.ProofOfHeart`: the contract as it runs, storage in fields, each entry point a method that rewrites them,
  with `Loops` and `Buckets` holding the loops that compute a value. Every entry point is proved to do to the storage
  exactly what its specification function says, on an error to leave it as it was, and to keep the invariant.
- `Invariants`, `Compose` and the `*Proofs` and `MilestoneSound` modules: the invariant of a campaign and of the whole
  contract, and that every entry point keeps it. `Runs` turns this into statements about every run: any calls, in any
  order, failing or not, with time passing, settings changing within their bounds and tokens moving outside.
- `History` shows that the history variables of any reachable state are what its run's successful calls record, and
  `Payments` that every call moves exactly its payments between the balances.
- `Frames` states for every call which fields of which record it writes, and with what; `Traces` reads the terms, fees,
  caps, milestones, owners and contributions of any reachable campaign off the calls of its run. `Acceptance` gives for
  the entry points the exact conditions under which they succeed. Roundings are stated without division (`Rounding`).
- `Shares`, `FeeRuns`, `VestingRuns`, `RefundRuns`, `BurstRuns`: amounts, rates, delays, refunds and the limit on bursts
  over runs. `EscrowTheorems`, `Solvency`, `MilestoneTheorems`, `MilestoneOrders`, `MilestoneRuns`, `RevenueTheorems`,
  `RevenueRuns`, `VoteTheorems`, `Provenance`, `IndexTheorems`, `CreatorPages`, `Queries`: the results below. `Witnesses`
  and `Overdraws`: concrete runs in which the contract falls short of what one might expect.

Conventions. The contract's own address never signs, so a call that needs its authorization fails with `AuthFailed`;
a token transfer beyond the payer's balance fails with `TransferFailed`; both stand for host traps. The host reverts a
failing call. Amounts are unbounded integers with an explicit `Overflow` wherever the code uses checked arithmetic and
the operation can overflow; every amount that is divided is non-negative in every reachable state, where truncation
and Euclidean division agree. `Configure` stands for all remaining admin setters at once: any settings within the
bounds those setters enforce.

## Where the code falls short of the expected property

Each of these is proved, with its exact condition and a concrete case.

- The last-claimant branch of `claim_revenue` takes everything undistributed, including what earlier claimants are
  owed from later deposits (`RevenueTheorems.SweepCoversIff`, `Overdraws.DepositBeforeSweepOverdraws`), and a deposit
  after a full round can raise more shares than it adds (`RevenueTheorems.CoversIff`, `Solvency.DepositCoversIff`,
  `Overdraws.DepositAfterSweepOverdraws`). A contributor whose share truncates to zero never reaches that branch
  (`RevenueTheorems.RoundCompletesIff`, `RevenueRuns.RoundOnRunIff`).
- A milestone whose slice of the amount raised truncates to zero can be claimed only last. While nothing more is
  contributed, two of them stop the campaign short of completion (`MilestoneRuns.UninterruptedOrderCompletesIff`,
  `TwoEmptySlicesStall`, `Witnesses.EmptySlicesRefused`); a later contribution may raise their slices.
- Clearing the tally on the edit of a verified campaign is there so that votes for an old text cannot verify a new one.
  An edit before verification keeps the tally, so they can (`Provenance.CountedOnPresentTextIff`, `EditCarriesVotesIff`,
  `Witnesses.OldVoteVerifiesNewText`).
- The fee recipient is pinned at the first contribution so that a change of admin cannot redirect a fee. A milestone
  claim pays the present admin all the same (`Provenance.FeeGoesTo`, `Witnesses.FeeFollowsAdmin`).
- `admin_cancel_campaign` after a milestone payout leaves refunds due that the campaign's escrow cannot cover
  (`EscrowTheorems.AdminCancelCoversIff`, `Witnesses.PayoutThenCancelStrandsRefund`).
- Cancelling subtracts the gross amount raised from the global total although refunds and milestone payouts have
  already been subtracted (`EscrowTheorems.CancelExactIff`, `AdminCancelExactIff`,
  `Witnesses.RefundThenCancelUndercounts`). `GlobalTotal` states the total with that drift for every run.
- A fee change between milestone claims can pay out up to one unit less than the number of milestones beyond the
  amount raised (`MilestoneTheorems.OverpaysIff`, `OverpayBound`, `Overdraws.FeeChangeOverpays`); under one rate
  nothing is overpaid (`NeverOverpaysUnderOneRate`).
- After a transfer has shortened a bucket that is not the last one, the bucket paginator does not end on pages that
  run past that bucket (`Buckets.HaltsIffClear`, `RemovePackedIff`, `RemovalCanHangPagination`), later arrivals can
  overfill the last bucket past what any page returns (`CreatorPages.CreatorPagesCompleteIff`, `OverfullBucketHides`),
  and `get_creator_stats` can miss campaigns (`Queries.StatsCoverIff`, `RemovalHidesCampaign`).
- The comment on `list_active_campaigns` tells callers to query again with the returned cursor, but `start` is
  exclusive: that skips every active campaign a cursor names (`Queries.CursorAsStartLosesIff`, `CursorAsStartSkips`).
  Passing the cursor less one reads everything (`ReadAllIsEverything`).

## Model

| member | source | states |
|---|---|---|
| `Runs.CallSound` | src/lib.rs:75-877 | every entry point, from any state satisfying the invariant, keeps the whole-contract invariant, takes back nothing (raised totals, closed phases, passed deadlines) and leaves each token's surplus over the campaigns' books unchanged to the unit |
| `Runs.ReachableInv` | src/lib.rs:75-877 | the invariant holds in every state reachable from initialisation by any calls in any order, failed calls and the passing of time included |
| `Runs.RunEvolves` | src/lifecycle.rs:47-66 | any later state of a run evolves from any earlier one |
| `Runs.TokensConserved` | src/contributions.rs:334-383 | over any run the contract's balance of each token is the sum of what its campaigns' books hold plus what outsiders gave it unasked |
| `Payments.EveryCallPays` | src/campaigns/withdraw.rs:110-125 | every successful call moves exactly its payments, and no other balance of any token changes by a unit: a contribution to the contract, a batch item by item, a refund of the whole current contribution, fee and creator share of a withdrawal or milestone, reserve, revenue deposit and claims; all other calls move nothing |
| `Payments.ItemsNet` | src/contributions.rs:262-324 | the per-token settlement of a batch is the same as paying its items one by one |
| `Frames.CallFramed` | src/lib.rs:75-877 | every successful call but a creation is about a stored campaign, keeps the set of campaigns, and changes each field of each record, and settings, pause flag, clock and ledger number, only as listed there: who may write what, and with which value |
| `Frames.CreateFresh` | src/campaigns/create.rs:57-244 | a creation adds exactly the next id, its record read off the call's arguments and the settings of the moment: currency, start, vesting terms, goal, deadline, shares, everything else empty |
| `Traces.TermsFromCreation` | src/campaigns/create.rs:140-235 | in every later state the currency, start time, vesting delay and share, goal, category, cap and revenue share are those of the creating call and of the settings at that call |
| `Traces.DeadlineIsTrace` | src/campaigns/update.rs:146-197 | on every run the deadline is the creation time plus the days asked for at creation and by the successful extension |
| `Traces.OverrideIsLastSet` | src/admin.rs:277-302 | a campaign's own fee is the last one successfully set in the run, if any |
| `Traces.CapIsTrace` | src/contributions.rs:385-441 | a personal cap is the last one its owner set, unless removed or refunded since |
| `Traces.OwnersAreTrace` | src/campaigns/transfer.rs:38-182 | a campaign's creator is who created it or accepted the last offer made and not withdrawn |
| `Traces.MilestonesAreTrace` | src/milestones.rs:20-123 | the stored milestones are the list the creator set, with exactly those verified that the admin's successful calls verified, and claimed exactly those the creator's successful calls claimed |
| `Traces.PaidOnceVerified` | src/milestones.rs:127-163 | on every run a milestone is paid only after a successful verification by the admin of that moment, and only once |
| `Traces.ContributionsAreTrace` | src/contributions.rs:106-162 | a contributor's lifetime contribution is the sum of their successful contributions, batch items included; the current one is the sum of those since their refund |
| `History.HistoryIsTrace` | src/lib.rs:75-877 | the history variables of every reachable state are read off the run: exactly the votes, refunds, milestone payouts and revenue claims of its successful calls |
| `Contract.FollowingKeepsInvariant` | src/lib.rs:75-877 | whatever a call does that follows a sound specification, error or success, the invariant holds after it and nothing is taken back; every entry point of the class requires and ensures the invariant by this lemma |
| `Contract.ProofOfHeart.Initialize` | src/admin.rs:37-92 | initialisation refuses a caller that cannot sign, a fee above 1000 basis points and an address that is no token, in that order, and otherwise leaves a fresh, empty, unpaused contract with the default settings |
| `Contract.ProofOfHeart.CheckContribution` | src/contributions.rs:164-235 | the checks of one contribution; one that passes is positive, to an open verified campaign of somebody else before its deadline, within the transaction, per-user and personal caps, at most twice the goal, and leaves a burst count of at most 10; `Acceptance.ContributeIff` and `BurstRuns` state the exact conditions and the count |
| `Contract.ProofOfHeart.UpdateAccounting` | src/contributions.rs:106-162 | one contribution's accounting: gross and effective totals, current and lifetime contribution, contributor count on a first contribution, fee recipient pinned by the first unit raised, global total |
| `Contract.ProofOfHeart.Contribute` | src/contributions.rs:164-235 | the state after a contribution is the specified one; any error, the token transfer's included, leaves the state as it was; `Acceptance.ContributeIff` says when it succeeds and `Traces.ContributionsAreTrace` what it adds up to |
| `Contract.ProofOfHeart.AcceptItems` | src/contributions.rs:244-332 | the batch loop: each item sees the accounting of those before it, and the owed map is the per-token total |
| `Contract.ProofOfHeart.BatchContribute` | src/contributions.rs:244-332 | the whole batch and one settlement per token, or an error and no change |
| `Contract.ProofOfHeart.ForgetContribution` | src/contributions.rs:334-383 | a refund removes the contributor from contributions, caps and revenue claims and takes the amount off the effective total |
| `Contract.ProofOfHeart.ClaimRefund` | src/contributions.rs:334-383 | a refund pays back the whole current contribution of a cancelled or failed campaign; the global total moves only if the campaign is not cancelled; errors change nothing; `Acceptance.RefundIff` says exactly when it is paid |
| `Contract.ProofOfHeart.SetPersonalCap` | src/contributions.rs:385-411 | a personal cap is at least the lifetime contribution and within the campaign's cap |
| `Contract.ProofOfHeart.RemovePersonalCap` | src/contributions.rs:423-441 | removes an existing personal cap of an open campaign, errors as the code orders them |
| `Contract.ProofOfHeart.DivideEscrow` | src/campaigns/withdraw.rs:53-78 | at rates of at most 100% fee, reserve and creator share are non-negative and add up to the escrow, fee and reserve being the smallest whole amounts not below their rates |
| `Contract.ProofOfHeart.WithdrawFunds` | src/campaigns/withdraw.rs:18-146 | closes the campaign, pays fee and creator, records the reserve and its release time, takes what left off the global total; errors change nothing; `FeeRuns.WithdrawalOnRuns` states the amounts and the release time, `Acceptance.WithdrawIff` when it succeeds |
| `Contract.ProofOfHeart.WithdrawReserve` | src/campaigns/withdraw.rs:148-202 | releases a due reserve once, to the creator; `VestingRuns.ReserveHeldBack` and `ReserveReleasedIff` say from when |
| `Contract.ProofOfHeart.CancelCampaign` | src/campaigns/cancel.rs:15-90 | marks the campaign cancelled, drops its tallies, takes the gross amount raised off the global total, returns a revenue pool |
| `Contract.ProofOfHeart.AdminCancelCampaign` | src/campaigns/cancel.rs:102-149 | the same without the goal check and without touching the pool, reason and admin checked |
| `Contract.ProofOfHeart.SetMilestones` | src/milestones.rs:20-75 | stores a list once, with positive shares, distinct ids and 10000 basis points in all, unverified |
| `Contract.ProofOfHeart.VerifyMilestone` | src/milestones.rs:78-123 | marks exactly the milestone with the id, refusing an already verified or unknown one |
| `Acceptance.SetMilestonesIff` | src/milestones.rs:20-57 | milestones are set if and only if none are yet, the campaign is open to payouts, and the 1 to 10 given have positive shares, texts, distinct ids and 10000 basis points in all |
| `Acceptance.VerifyMilestoneIff` | src/milestones.rs:78-116 | a milestone is verified if and only if the admin asks, the campaign is not cancelled and the milestone is listed and unverified |
| `Contract.ProofOfHeart.PayoutAmounts` | src/milestones.rs:168-244 | the two shares of a claim: truncated slices, or for the last unclaimed milestone what the claimed slices leave |
| `Contract.ProofOfHeart.ClaimMilestone` | src/milestones.rs:127-302 | pays fee and creator, marks the milestone claimed, completes the campaign with the last one; errors change nothing; `FeeRuns.ClaimOnRuns` states rate and amounts, `Acceptance.ClaimMilestoneIff` when it succeeds |
| `Contract.ProofOfHeart.DepositRevenue` | src/revenue.rs:15-50 | adds to the pool of a withdrawn revenue-sharing campaign and takes the tokens from its creator |
| `Acceptance.DepositIff` | src/revenue.rs:15-50 | a deposit is accepted if and only if it is positive, of a withdrawn revenue-sharing campaign, fits, and its creator has the tokens |
| `Contract.ProofOfHeart.SettleClaim` | src/revenue.rs:69-164 | the checks and amount of a revenue claim, last-claimant branch included, and the revenue record it leaves; `Shares.ClaimPaidIff` and `ClaimLeaves` state condition and amount in whole numbers |
| `Contract.ProofOfHeart.ClaimRevenue` | src/revenue.rs:52-179 | records and pays the claim; errors change nothing; `Shares.ClaimPaidIff` says exactly when it is paid |
| `Contract.ProofOfHeart.ClaimCreatorRevenue` | src/revenue.rs:181-235 | pays the creator their share of the pool less what they already claimed |
| `Contract.ProofOfHeart.CastVote` | src/voting.rs:70-140 | counts one vote of a token holder on an open unverified campaign before its deadline and marks the voter |
| `Contract.ProofOfHeart.AdminVerify` | src/voting.rs:148-165 | marks an open unverified campaign verified and counts it |
| `Contract.ProofOfHeart.VerifyCampaigns` | src/lib.rs:317-349 | best effort over the first 50 ids: the state after every success in order, and the two lists of ids |
| `Contract.ProofOfHeart.VerifyWithVotes` | src/voting.rs:175-220 | marks verified exactly when quorum and threshold of the current tally are met |
| `Contract.ProofOfHeart.PurgeVotingState` | src/admin.rs:574-608 | removes the given voters of a closed campaign, and with `finalize` its tallies |
| `Contract.ProofOfHeart.UpdateDescription` | src/campaigns/update.rs:61-144 | an edit of a verified campaign revokes the verification and drops the tally, keeping who has voted |
| `Contract.ProofOfHeart.ExtendDeadline` | src/campaigns/update.rs:146-197 | moves an unexpired, never extended deadline by at most 30 days within the category's and the platform's duration cap |
| `Contract.ProofOfHeart.CreateCampaign` | src/campaigns/create.rs:57-244 | allocates the next id, stores the campaign with its terms, appends it to its category and creator lists; `Frames.CreateFresh` states the whole new record from the call and the settings, `Acceptance.CreateIff` when it succeeds |
| `Acceptance.CreateIff` | src/campaigns/create.rs:57-160 | a campaign is created if and only if goal, duration, text, shares and cap are within the configured bounds and its token is the platform's or an allowed one |
| `Contract.ProofOfHeart.FileUnder` | src/campaigns/create.rs:228-235 | appends to the creator's last bucket, records position and owner |
| `Contract.ProofOfHeart.FileByCategory` | src/campaigns/create.rs:221-226 | appends to the category's last bucket and counts it |
| `Contract.ProofOfHeart.Unfile` | src/campaigns/transfer.rs:113-133 | swap-removal: the bucket's last campaign takes the hole and its position follows; the removed campaign's position goes and the count drops by one |
| `Contract.ProofOfHeart.AcceptTransfer` | src/campaigns/transfer.rs:75-161 | moves the campaign from the old creator's list to the new one's; errors change nothing |
| `Contract.ProofOfHeart.InitiateTransfer` | src/campaigns/transfer.rs:38-73 | records a pending creator other than the current one when none is pending |
| `Contract.ProofOfHeart.CancelTransfer` | src/campaigns/transfer.rs:163-182 | drops a pending transfer |
| `Contract.ProofOfHeart.AddTag` | src/tags.rs:31-64 | adds an unseen tag, within length and count limits, to the campaign and its inverted index |
| `Contract.ProofOfHeart.UpdatePlatformFee` | src/admin.rs:229-256 | sets the platform fee within 1000 basis points |
| `Contract.ProofOfHeart.SetFeeOverride` | src/admin.rs:277-302 | sets a campaign's own fee within 1000 basis points |
| `Contract.ProofOfHeart.SetVestingParams` | src/campaigns/withdraw.rs:204-230 | sets vesting delay and share within their bounds, a share needing a delay |
| `Contract.ProofOfHeart.SetCategoryDurationCap` | src/admin.rs:304-320 | sets a category's cap between 1 and 365 days |
| `Loops.CheckMilestones` | src/milestones.rs:40-57 | the validation loop accepts exactly the well-formed lists |
| `Loops.MarkMilestone` | src/milestones.rs:96-116 | the marking loop verifies the milestones with the id and tells unknown from already verified |
| `Loops.ClaimedTotals` | src/milestones.rs:180-199 | the summing loop yields the claimed shares and their truncated slices, or Overflow |
| `Loops.OthersClaimed` | src/milestones.rs:264-277 | the completion loop is true exactly when every other milestone is claimed |
| `Loops.PayOwed` | src/contributions.rs:317-324 | settling token by token in any order is the one settlement, refused exactly when some token is not affordable |
| `Loops.WithoutVoters` | src/admin.rs:597-599 | the purge loop removes exactly the given voters |
| `EscrowTheorems.FundedIsWhole` | src/contributions.rs:340-363 | a campaign that met its goal and was not cancelled still holds all it raised |
| `EscrowTheorems.RefundExcludesWithdrawal` | src/contributions.rs:340-363 | no run both refunds a contributor of a campaign and withdraws its funds, in either order |
| `EscrowTheorems.NothingTakenBack` | src/lifecycle.rs:47-66 | Withdrawn and Cancelled are absorbing, a passed deadline stays put, the amount raised never shrinks, terms and fee recipient never change |
| `EscrowTheorems.Horizon` | src/campaigns/update.rs:155-190 | every reachable campaign runs a whole number of days from 1 to 365 |
| `EscrowTheorems.ExtendedOnce` | src/campaigns/update.rs:155-190 | a deadline is extended at most once in a run |
| `Acceptance.ExtendIff` | src/campaigns/update.rs:146-197 | an extension is accepted if and only if it is the first, before the deadline, of 1 to 30 days, and the campaign then runs no longer, in whole days, than its category's cap and 365 days allow |
| `EscrowTheorems.CapsHold` | src/contributions.rs:23-37 | lifetime contributions respect the per-user cap; current ones respect personal caps, which respect the campaign's |
| `Acceptance.ContributeIff` | src/contributions.rs:23-235 | a contribution is accepted if and only if it meets every listed condition on caller, campaign, time, caps and size, the accounting has room, the contributor has the tokens and, above half the goal, fewer than ten were counted at this ledger number; with all else met the eleventh is refused with ContractPaused |
| `BurstRuns.ItemCounts` | src/contributions.rs:72-101 | a contribution to a campaign above half its goal raises the count of its ledger number by one, from nothing in a new ledger, to at most ten |
| `BurstRuns.BurstBound` | src/contributions.rs:72-101 | on every run, once a campaign is above half its goal, the calls made at one ledger number bring it at most ten contributions, batch items included, and the count is theirs |
| `BurstRuns.EleventhRefused` | src/contributions.rs:72-101 | after ten of them a further contribution, if otherwise acceptable, is refused with ContractPaused, and no batch containing one succeeds |
| `EscrowTheorems.LedgerSums` | src/contributions.rs:129-159 | effective total = sum of contributions, gross total = sum of lifetime contributions, contributor count = contributors with a positive contribution |
| `EscrowTheorems.RefundDecrementsExactly` | src/storage.rs:467-472 | the guarded decrement of the contributor count never meets zero |
| `EscrowTheorems.CancelMeetsNoPool` | src/campaigns/cancel.rs:35-44 | a campaign not withdrawn has no revenue, so a cancellation never meets a pool |
| `EscrowTheorems.EscrowOfPlainCampaign` | src/campaigns/withdraw.rs:53-126 | without milestones a campaign holds the unrefunded contributions before withdrawal and the unreleased reserve after it |
| `PayoutProofs.SplitAddsUp` | src/campaigns/withdraw.rs:53-78 | fee, reserve and creator share are non-negative, add up to the escrow exactly, and fee and reserve are the smallest whole amounts not below their rates |
| `FeeRuns.WithdrawalOnRuns` | src/campaigns/withdraw.rs:46-146 | on every run a withdrawal pays the fee, rounded up, at the campaign's own rate as last set or else the platform's of the moment, sets aside the reserve, rounded up, at the share and for the delay configured when the campaign was created, and pays the creator the rest, to the named recipients |
| `Acceptance.WithdrawIff` | src/campaigns/withdraw.rs:18-46 | with clean books and room, funds are withdrawn exactly from an uncancelled, verified, funded campaign without milestones, once |
| `VestingRuns.ReserveHeldBack` | src/campaigns/withdraw.rs:87-98 | on every run a release comes after the withdrawal and not before the vesting delay configured at the campaign's creation has passed since it, whatever is configured in between |
| `VestingRuns.ReserveReleasedIff` | src/campaigns/withdraw.rs:148-202 | a reserve not released yet is released on request exactly from that moment on, pause and bookkeeping room aside, with clean books |
| `VestingRuns.ReserveStays` | src/campaigns/withdraw.rs:148-202 | a reserve keeps amount and release time for good and is released exactly when a successful call released it |
| `EscrowTheorems.CleanIsSolvent` | src/campaigns/withdraw.rs:53-126 | no clean campaign's books are in the red, where clean means: no cancellation or fee change among milestone claims, and no revenue claimant has had more beyond their share than the rounding dust |
| `EscrowTheorems.BalanceCovers` | src/campaigns/withdraw.rs:53-126 | the contract's balance covers a campaign's books whenever the other campaigns in its token are clean |
| `EscrowTheorems.RefundNeverShort` | src/contributions.rs:334-383 | a due refund never fails for lack of tokens while the token's campaigns are clean |
| `Acceptance.RefundIff` | src/contributions.rs:334-383 | a refund is paid if and only if the caller signs, the contract runs, the campaign is cancelled or past its deadline short of its goal, the caller has something in it, the totals fit and the contract has the tokens; nothing else can refuse it |
| `RefundRuns.DueRefundIsPaid` | src/contributions.rs:334-383 | on every run, while the token's campaigns are clean, whoever gave to a failed campaign is refunded on request, pause and bookkeeping room aside, and gets the whole of what they gave |
| `RefundRuns.OnlyDueRefunds` | src/contributions.rs:334-383 | nobody is refunded anything else, nor twice |
| `EscrowTheorems.WithdrawalNeverShort` | src/campaigns/withdraw.rs:18-146 | nor does a withdrawal or the release of a reserve |
| `Solvency.RevenueNeverShort` | src/revenue.rs:52-235 | nor any revenue claim of a contributor, before or after the last claimant's, nor the creator's claim |
| `Solvency.MilestoneNeverShort` | src/milestones.rs:127-302 | nor a milestone claim at the fee rate of the earlier ones |
| `EscrowTheorems.AdminCancelCoversIff` | src/campaigns/cancel.rs:102-149 | after an admin cancellation the escrow covers all refunds if and only if no milestone had been claimed |
| `EscrowTheorems.GlobalTotal` | src/campaigns/cancel.rs:46-61 | on every run the global total is the sum of what uncancelled campaigns hold in escrow less what cancellations deducted for money already refunded or paid out |
| `EscrowTheorems.CancelExactIff` | src/campaigns/cancel.rs:46-61 | a creator's cancellation lowers the global total by exactly the campaign's share of it if and only if nothing had been refunded, that is the effective total equals the gross one |
| `EscrowTheorems.AdminCancelExactIff` | src/campaigns/cancel.rs:127-133 | an admin's does if and only if nothing had been refunded and no milestone claimed |
| `Acceptance.CancelIff` | src/campaigns/cancel.rs:15-61 | a creator can cancel exactly an open campaign short of its goal |
| `Acceptance.AdminCancelIff` | src/campaigns/cancel.rs:102-133 | the admin can cancel, giving a reason, exactly an open campaign |
| `BatchProofs.BatchRefinesSequence` | src/contributions.rs:244-332 | the batch succeeds exactly when the same contributions one by one all succeed, and leaves the same state, balances included |
| `BatchProofs.OwedSums` | src/contributions.rs:262-309 | the owed map holds per token the sum of that token's items, repeated campaigns included |
| `BatchProofs.TotalFits` | src/contributions.rs:262-309 | the running total of an accepted batch fits i128, so its checked additions never fail |
| `Witnesses.RefundThenCancelUndercounts` | src/campaigns/cancel.rs:46-61 | a run: refund 5 from a failed campaign, then cancel it; the global total ends at -5 |
| `Witnesses.PayoutThenCancelStrandsRefund` | src/campaigns/cancel.rs:102-149 | a run: one of two milestones paid, then an admin cancellation; the refund due cannot be paid |
| `MilestoneTheorems.MilestonesExact` | src/milestones.rs:168-244 | if all claims saw one raised amount and fee rate, the completed payouts are exactly raised minus fee and the fee, rounded up, in any order |
| `MilestoneTheorems.PrefixWithinTotals` | src/milestones.rs:168-244 | no prefix of such claims exceeds either total |
| `MilestoneTheorems.NeverOverpaysUnderOneRate` | src/milestones.rs:180-257 | under one fee rate the payouts stay within the amount raised however it grows between claims |
| `MilestoneTheorems.OverpayBound` | src/milestones.rs:180-257 | whatever the fee rates, payouts exceed the amount raised by less than the number of milestones, and not at all before completion |
| `MilestoneTheorems.OverpaysIff` | src/milestones.rs:180-257 | the completing claim brings the payouts above the amount raised if and only if the earlier claims paid more than their slices come to at the present amount and fee rate, and by exactly that difference |
| `FeeRuns.ClaimOnRuns` | src/milestones.rs:164-302 | on every run a milestone claim divides the amount raised at the campaign's own rate as last set or else the platform's of the moment, fee rounded up, and pays of both parts the milestone's slice rounded down or, for the last milestone, what the other slices leave, to admin and creator |
| `Acceptance.ClaimMilestoneIff` | src/milestones.rs:127-248 | with clean books and room, at the rate of the earlier claims, a milestone is paid exactly if the campaign is funded, verified and open, and the milestone listed, verified, unclaimed and either its slice at least 1 or it is the last and anything is left |
| `Overdraws.FeeChangeOverpays` | src/milestones.rs:180-257 | a run: two halves of 2, a fee raised from 0 to 10% between the claims, 3 paid out; another campaign's refund then fails for lack of tokens |
| `MilestoneTheorems.DustIffCompletes` | src/milestones.rs:201-283 | the claim that takes the remainders is exactly the claim that completes the campaign |
| `MilestoneTheorems.CompletesOnce` | src/milestones.rs:201-283 | after completion no milestone claim succeeds |
| `MilestoneRuns.UninterruptedOrderCompletesIff` | src/milestones.rs:196-248 | a run of milestone claims with nothing in between, on a funded campaign with all milestones verified and none claimed: in the given order all succeed if and only if there is something to pay out and every slice before the last claim is at least 1 at the amount then raised, and that completes the campaign |
| `MilestoneRuns.ClaimSucceedsIff` | src/milestones.rs:127-302 | a claim on such a campaign, transfers included, succeeds exactly when the milestone is listed, verified, unclaimed and its payout positive |
| `MilestoneOrders.FrozenOrderCompletesIff` | src/milestones.rs:196-248 | the same of the payout arithmetic alone at one frozen total |
| `MilestoneRuns.TwoEmptySlicesStall` | src/milestones.rs:196-248 | while the amount raised stays as it is, two slices that truncate to nothing let no order of claims succeed throughout |
| `Witnesses.UnevenReady` | src/milestones.rs:127-248 | a run from initialisation reaches a campaign to which the results on uninterrupted claims apply, in the order 3, 1, 2 |
| `Witnesses.EmptySlicesRefused` | src/milestones.rs:196-248 | a run: shares of 4%, 4% and 92% of 10; the third pays 9, then the other two are both refused |
| `MilestoneOrders.ClaimNextIsChecked` | src/milestones.rs:127-248 | with the campaign's own guards passed and no overflow, the contract accepts a claim exactly when the milestone steps do and otherwise refuses it with their error |
| `Slices.LastIffOthersClaimed` | src/milestones.rs:201-283 | the arithmetic test 'remaining shares equal mine' holds exactly when all other milestones are claimed |
| `RevenueTheorems.RoundExact` | src/revenue.rs:82-235 | on a campaign's books, no deposit after the first claim, the code's overflow checks passed and every truncated share at least 1: claims in any order pay exactly the contributors' side of the pool, and once the creator has claimed too nothing of the pool is held |
| `RevenueRuns.RoundOnRunIff` | src/revenue.rs:52-235 | a run of claims by all contributors, in any order, with the token's campaigns clean: all are paid if and only if every truncated share is at least 1; then exactly the contributors' side has been paid, and after the creator's claim nothing of the pool is held |
| `RevenueRuns.SweepWithin` | src/revenue.rs:114-131 | in such a round the last claimant takes no more beyond their share than the rounding dust, so the campaign stays clean |
| `RevenueTheorems.RoundCompletesIff` | src/revenue.rs:94-96 | such a round can be completed if and only if every truncated share is at least 1 |
| `RevenueTheorems.ZeroShareCannotClaim` | src/revenue.rs:94-96 | a contributor whose share truncates to zero cannot claim |
| `Shares.ShareOnRuns` | src/revenue.rs:82-96 | on every run, a contributor none of whose claims swept the remainder has had in all d with d * E * 10000 <= c * p * share < (d + 1) * E * 10000, for their contribution c, the pool p at their last successful claim and the effective total E: one rounding down, however many claims and deposits came before |
| `Shares.ClaimPaidIff` | src/revenue.rs:52-179 | with clean books a claim is paid exactly when the caller signs, the contract runs, the campaign shares revenue and is withdrawn, the products fit, and (d + 1) * E * 10000 <= c * pool * share for what the caller has had so far, d |
| `Shares.ClaimLeaves` | src/revenue.rs:82-164 | an ordinary claim leaves the claimant exactly that share of the present pool; the last claimant leaves distributed all of the pool but the creator's share rounded down; what is distributed grows by what the claimant has more |
| `Shares.CreatorPaidIff` | src/revenue.rs:181-235 | the creator is paid exactly when their share of the pool, rounded down, is at least a unit more than they have had, and then has had exactly that |
| `Solvency.PathIndependentOnRuns` | src/revenue.rs:82-96 | in every reachable state what a contributor has had in all is the share the code computes from the pool at their last claim; only the last claimant may have had more; `Shares.DueFloored` says which whole number that share is |
| `Shares.DueFloored` | src/revenue.rs:83-90 | dividing by the effective total and then by 10000 rounds down once, as dividing the whole product would |
| `RevenueTheorems.NoOverdrawBeforeSweep` | src/revenue.rs:82-96 | before the last claimant, contributors have had no more than their side of the pool, and with the creator no more than the pool |
| `Solvency.NoOverdrawOnRuns` | src/revenue.rs:82-96 | the same in every reachable state |
| `RevenueTheorems.LastClaimantSweeps` | src/revenue.rs:114-131 | whatever came before, the last claimant's claim brings the distributed total to exactly the contributors' side of the pool |
| `Solvency.LastClaimSweepsOnRuns` | src/revenue.rs:114-131 | the same of the call in every reachable state |
| `RevenueTheorems.ClaimKeepsSlack` | src/revenue.rs:82-96 | an ordinary claim leaves held revenue less all open claims unchanged |
| `RevenueTheorems.CreatorClaimKeepsSlack` | src/revenue.rs:181-235 | so does the creator's claim |
| `RevenueTheorems.CoveredBeforeSweep` | src/revenue.rs:82-96 | before the last claimant, held revenue covers every open claim |
| `RevenueTheorems.SweepCoversIff` | src/revenue.rs:114-131 | after the last claimant's claim held revenue still covers every open claim if and only if nobody else had anything left to claim |
| `RevenueTheorems.CoversIff` | src/revenue.rs:82-131 | held revenue covers every open claim if and only if no claimant has had more beyond their share of the present pool than its rounding dust; until the last claimant has been served that is always so |
| `Solvency.DepositCoversIff` | src/revenue.rs:15-50 | a deposit leaves every open claim covered if and only if, at the larger pool, no claimant has had more beyond their share than the rounding dust, which the stored records decide before the call; until the last claimant has been served any deposit does |
| `Overdraws.DepositBeforeSweepOverdraws` | src/revenue.rs:114-131 | a run: deposits of 4 before and after the first claim; the last claimant takes what the first is still due, the claims come to 9 of 8, and another campaign's refund fails for lack of tokens |
| `Overdraws.DepositAfterSweepOverdraws` | src/revenue.rs:82-131 | a run: a full round over 7, a deposit of 1, two more claims of 1, and another campaign's refund fails for lack of tokens |
| `VoteTheorems.VoteOnce` | src/voting.rs:97-129 | over any run an address votes on a campaign at most once, edits, re-verifications and purges included |
| `VoteTheorems.BallotsAreTrace` | src/campaigns/update.rs:61-144 | the votes behind a tally are exactly the successful votes since it was last cleared |
| `VoteTheorems.TallyCountsTrace` | src/voting.rs:101-129 | the tally counts those votes, for and against, and the weights mirror the counts |
| `VoteTheorems.ThresholdExact` | src/voting.rs:202-209 | the floored basis-point test is the exact comparison approve * 10000 >= threshold * total |
| `Acceptance.VerifyWithVotesIff` | src/voting.rs:29-33 | community verification succeeds if and only if the campaign is open and unverified, the votes reach the quorum, and the approving ones the threshold of its category, or else the general one |
| `Acceptance.CastVoteIff` | src/voting.rs:70-140 | a vote counts if and only if the voter signs, holds tokens and at least the minimum, has not voted, and the campaign is open, unverified and before its deadline |
| `Acceptance.VerifyManyIff` | src/lib.rs:317-349 | the batch verifies, of its first 50 ids, exactly the open unverified campaigns |
| `VoteTheorems.VerificationRestsOnFreshQuorum` | src/voting.rs:175-220 | a successful community verification rests on at least a quorum of distinct voters since the last revocation, whose approving share meets the threshold of the campaign's category, or else the general one |
| `Provenance.TextIsLastEdit` | src/campaigns/update.rs:61-144 | on every run a campaign's text is what its last successful edit wrote, whatever other calls happen |
| `Provenance.CountedOnPresentTextIff` | src/campaigns/update.rs:113-127 | all votes a tally counts were cast on the present text if and only if no counted vote was followed by a successful edit, other than one that put that vote's text back |
| `Provenance.EditCarriesVotesIff` | src/campaigns/update.rs:61-144 | after an edit the community verification of the new text succeeds if and only if it would have succeeded before the edit: the votes on the old text carry it |
| `Witnesses.OldVoteVerifiesNewText` | src/campaigns/update.rs:113-127 | a run: one vote on the first text, an edit, and that vote verifies the second text |
| `Provenance.RecipientIsFirstAdmin` | src/contributions.rs:106-162 | in every state after a campaign's first contribution the pinned fee recipient is the admin at that contribution |
| `Provenance.FeeGoesTo` | src/milestones.rs:285-294 | a withdrawal pays its fee to the admin of the first contribution; a milestone claim pays its fee to the present admin, so to the pinned recipient if and only if the admin is still the same |
| `Witnesses.FeeFollowsAdmin` | src/milestones.rs:285-294 | a run: funded under one admin, claimed under the next, who gets the fee although the pinned recipient is the first |
| `IndexTheorems.PositionIffSlot` | src/campaigns/transfer.rs:98-153 | position(creator, id) = (b, s) if and only if slot s of bucket b holds id |
| `IndexTheorems.OneSlot` | src/campaigns/transfer.rs:98-153 | every campaign has exactly one slot, in its current creator's list, and the reverse index names that creator |
| `IndexTheorems.CreatorListsRepeatFree` | src/campaigns/transfer.rs:98-153 | in every reachable state no campaign sits in two buckets of a creator's list |
| `IndexTheorems.CountIsOwnedIsLengths` | src/campaigns/transfer.rs:98-153 | a creator's count is the number of campaigns they own and the sum of their bucket lengths |
| `IndexTheorems.AcceptNeverLost` | src/campaigns/transfer.rs:75-161 | in a reachable state accepting a transfer fails neither on the index nor on the self-transfer guard |
| `Acceptance.AcceptIff` | src/campaigns/transfer.rs:75-161 | a transfer is accepted if and only if the contract runs, the campaign is open and an offer to another account stands |
| `IndexTheorems.CategoryListed` | src/campaigns/create.rs:221-226 | a category's list is its campaigns, each once, in order of creation, in full buckets but the last |
| `IndexTheorems.TagListed` | src/storage.rs:1547-1554 | a tag's list is the campaigns that carry it, each once, in full buckets but the last |
| `IndexTheorems.TransferPacksIff` | src/campaigns/transfer.rs:116-133 | a transfer leaves the old creator's list packed exactly when the campaign leaves the last bucket in use |
| `IndexTheorems.CountersAgree` | src/storage.rs:1122-1189 | active, verified, cancelled and campaign counters equal the cardinalities they name; active means neither cancelled nor withdrawn |
| `Buckets.HaltsIffClear` | src/queries.rs:126-177 | the paginator ends if and only if no bucket it enters before the end of the page is partly filled and exhausted |
| `Buckets.CollectedIsSlice` | src/queries.rs:126-177 | in a packed index a page is exactly that slice of the flat list |
| `Buckets.PagesConcatenate` | src/queries.rs:126-177 | of a packed index the pages all end and concatenate to the whole list, nothing lost or repeated |
| `CreatorPages.PagesCompleteIff` | src/queries.rs:126-177 | of a list whose buckets hold what its count says, and where a bucket after full ones is at most full, the pages of any size all end and return as many ids as it holds if and only if every bucket before the last is full |
| `CreatorPages.CreatorPagesCompleteIff` | src/queries.rs:232-247 | on every run that is so of every creator's list, and of a packed one the pages are the list |
| `CreatorPages.OverfullBucketHides` | src/campaigns/transfer.rs:113-147 | an index of 1000: a removal from the first bucket and an arrival put 501 in the second, whose last slot no page returns |
| `Buckets.GetCampaignsFromBuckets` | src/queries.rs:126-177 | the two nested loops return the records of the collected ids, ending at min(start + min(limit, 50), total) |
| `Buckets.AppendPacked` | src/storage.rs:1547-1554 | an append keeps an index packed and adds its id at the end of the flat list |
| `Buckets.RemovePackedIff` | src/campaigns/transfer.rs:116-133 | swap-removal keeps an index packed exactly when it hits the last bucket in use |
| `Buckets.RemovalCanHangPagination` | src/campaigns/transfer.rs:116-133 | an index of 501: a removal from its first bucket leaves a page on which the paginator does not end |
| `Queries.ListCampaigns` | src/queries.rs:46-64 | the loop returns the stored campaigns with the ids of the window |
| `Queries.ListedInOrder` | src/queries.rs:46-64 | with ids 1 to total stored a page is the next min(limit, 50) campaigns in id order |
| `Queries.ListActiveCampaigns` | src/queries.rs:71-112 | the scanning loop computes page and cursor as specified |
| `Queries.CursorIsFirstUnscanned` | src/queries.rs:71-112 | a non-zero cursor is the first unscanned id and every active id before it is on the page; zero means the scan reached the end |
| `Queries.ReadAllIsEverything` | src/queries.rs:71-112 | re-querying with start = cursor - 1 ends and reads every active campaign once, in order |
| `Queries.CursorAsStartLosesIff` | src/queries.rs:66-112 | a client that re-queries with start = cursor, page after page, reads everything if and only if none of the cursors it is handed names an active campaign |
| `Queries.CursorAsStartSkips` | src/queries.rs:66-112 | an input: pages of one over four campaigns; the first cursor costs nothing, the second loses the campaign it names |
| `Queries.GetCreatorStats` | src/queries.rs:261-292 | the creator's count, and the sums the nested loops take over the ids of the first ceil(count / 500) buckets |
| `Queries.PackedStatsAreComplete` | src/queries.rs:261-292 | in a packed index those are all of the creator's campaigns, once each |
| `Queries.StatsCoverIff` | src/queries.rs:261-292 | on any list without repeats the aggregate covers every campaign if and only if no bucket past those it reads is in use |
| `Queries.RemovalHidesCampaign` | src/queries.rs:261-292 | an index of 501: a transfer of its first campaign hides the last one from the aggregate |

## Left out

- Buckets.GetCampaignsFromBuckets: requires that the paginator ends on the page asked for, because on the other pages the code's loop does not; `HaltsIffClear` says which those are.
- MilestoneRuns.UninterruptedOrderCompletesIff: of campaigns whose amount raised times 10000 fits i128 and whose token's campaigns are clean; beyond that a claim can also fail on overflow or on the transfer.
- Acceptance.WithdrawIff: of amounts whose products fit i128, where a withdrawal cannot also fail on overflow, and while the token's campaigns are clean.
- Acceptance.ClaimMilestoneIff: likewise, and at the fee rate of the earlier claims, because at another rate the last claim may exceed the escrow.
- Shares.ClaimPaidIff: while the token's campaigns are clean, because otherwise the transfer can also fail for lack of tokens.
- VestingRuns.ReserveReleasedIff: likewise.
- RevenueRuns.RoundOnRunIff: of rounds whose products fit i128, as the code checks, while the token's campaigns are clean.
- Solvency.MilestoneNeverShort: only at the fee rate of the earlier claims, because at another rate the last claim may exceed the escrow.
- Contract.ProofOfHeart.Initialize: a contract is initialised when it is created, so the refusal to initialise twice does not arise.
- Authorization: modelled only as "the contract itself never signs"; who may call is the address the caller names.
- Auto-pause: a contribution that trips the guard fails, and since the host reverts failing calls the pause flag it sets never persists; only the refusal is modelled.
- Pausing, resuming, emergency signers, admin transfer, goal limits, quorum and threshold setters: single-field writes, covered together by `SetPaused` and `Configure`; `Configure` also covers changes of admin.
- Token migration: every campaign's currency is fixed at creation; a campaign in the platform token does not follow a later token update, and the update's own checks are not modelled.
- Token contracts: balances only, with a transfer that fails on too little; allowances, decimals and re-entrancy are not modelled.
- Top contributor and last-contribution time, bookmarks, comments, portfolio and report queries, events: they feed nothing modelled here.
- Contract.ProofOfHeart.CreateCampaign: does not model the title, so neither its length check nor its uniqueness per creator can refuse a campaign; `update_campaign`, which edits title and text of an unverified campaign nobody has funded yet, and keeps its tally, is not modelled either, so edits here are those of `update_campaign_description`.
- Tag hashing: tags index by their text instead of its SHA-256.
- Fallbacks for records written by older versions (position scan, missing vesting snapshot, missing start time): every campaign is created by the code shown.
- Storage lifetimes, key layout, CPU budget, contract version and migration: host concerns.
- Storage keys are fields of records (`Entry`, `Index`, `Counters`) rather than separate keys, so a method stores a whole record where the code stores one key.
- Token transfers of `claim_refund`, `withdraw_funds` and the like are settled before the storage is written, where the code writes first and relies on the host to revert; without re-entrancy the outcome is the same.
