/** Values the contract stores and returns: src/types.rs, src/errors.rs, src/constants.rs. */
module Types {

  type Address = nat

  /** The contract's own address: it owns the escrow and never signs a call. */
  const SELF: Address := 0

  const BPS: nat := 10_000
  const BPS_CEIL_OFFSET: nat := 9_999
  const SECONDS_PER_DAY: nat := 86_400
  const MAX_DURATION_DAYS: nat := 365
  const MAX_EXTENSION_DAYS: nat := 30
  const PLATFORM_FEE_MAX_BPS: nat := 1_000
  const FUNDING_GOAL_MIN: int := 100_000
  const FUNDING_GOAL_MAX: int := 1_000_000_000_000_000
  const DEFAULT_QUORUM: nat := 3
  const DEFAULT_APPROVAL_BPS: nat := 6_000
  const REVENUE_SHARE_MAX_BPS: nat := 5_000
  const AUTO_PAUSE_SINGLE_BPS: nat := 20_000
  const AUTO_PAUSE_BURST: nat := 10
  const BURST_CHECK_MIN_RAISED_BPS: nat := 5_000
  const MAX_BATCH_CONTRIBUTE: nat := 20
  const MAX_BATCH_VERIFY: nat := 50
  const MAX_VOTERS_PER_PURGE: nat := 50
  const MAX_MILESTONES: nat := 10
  const MAX_TAGS: nat := 10
  const TAG_MAX_LEN: nat := 32
  const DESCRIPTION_MAX_LEN: nat := 1_000
  const MIN_APPROVAL_BPS: nat := 1_000
  const MAX_QUORUM: nat := 1_000
  const BUCKET_SIZE: nat := 500
  const LIST_MAX_LIMIT: nat := 50
  const MAX_SCAN_WINDOW: nat := 1_000

  const I128_MAX: int := 170141183460469231731687303715884105727
  const U64_MAX: int := 18446744073709551615
  const U32_MAX: int := 4294967295

  /** What the checked i128 operations accept. */
  predicate FitsI128(n: int) { -I128_MAX - 1 <= n <= I128_MAX }

  predicate FitsU64(n: int) { 0 <= n <= U64_MAX }

  datatype Option<+T> = None | Some(value: T) {
    function GetOr(default: T): T { if Some? then value else default }
  }

  datatype Error =
    | NotAuthorized | CampaignNotFound | CampaignNotActive | FundingGoalMustBePositive
    | InvalidDuration | InvalidRevenueShare | RevenueShareOnlyForStartup | DeadlinePassed
    | ContributionMustBePositive | FundsAlreadyWithdrawn | FundingGoalNotReached
    | NoFundsToWithdraw | CampaignAlreadyVerified | ValidationFailed | AlreadyVoted
    | NotTokenHolder | VotingQuorumNotMet | VotingThresholdNotMet | NoTransferPending
    | InvalidNewOwner | ContractPaused | ContributionCapExceeded | CampaignNotVerified
    | AmountRaisedIsZero | RevenueSharingNotEnabled | CancellationNotAllowed | Overflow
    | CreationDisabled | FundingGoalTooLow | AdminVerificationConflict
    | CommunityVerificationConflict | DeadlineAlreadyExtended | ExtensionTooLong
    | FundingGoalTooHigh | InvalidPlatformFee | TransferAlreadyPending | InvalidVestingDelay
    | GoalMetCancellationNotAllowed | InvalidStateTransition | PersonalCapNotFound
    | InvalidTokenContract | MilestoneNotFound | MilestoneNotVerified | MilestoneAlreadyClaimed
      // Host traps rather than contract errors: `require_auth` refused, a token transfer refused.
    | AuthFailed | TransferFailed

  /** Either the value of a successful call or the error it returned. */
  datatype Result<+T> = Ok(value: T) | Err(error: Error) {
    predicate IsFailure() { Err? }

    function PropagateFailure<U>(): Result<U>
      requires Err?
    {
      Err(error)
    }

    function Extract(): T
      requires Ok?
    {
      value
    }
  }

  datatype Outcome = Pass | Fail(error: Error) {
    predicate IsFailure() { Fail? }

    function PropagateFailure<U>(): Result<U>
      requires Fail?
    {
      Err(error)
    }
  }

  /** `:- Need(c, e)` is the source's `if !c { return Err(e) }`. */
  function Need(condition: bool, error: Error): Outcome {
    if condition then Pass else Fail(error)
  }

  datatype Category = Learner | EducationalStartup | Educator | Publisher

  datatype Campaign = Campaign(
    id: nat,
    creator: Address,
    firstCreator: Address,
    pendingCreator: Option<Address>,
    description: string,
    fundingGoal: int,
    deadline: nat,
    amountRaised: int,
    isActive: bool,
    fundsWithdrawn: bool,
    isCancelled: bool,
    isVerified: bool,
    category: Category,
    hasRevenueSharing: bool,
    revenueShare: nat,
    maxPerUser: int,
    feeOverride: Option<nat>,
    deadlineExtended: bool,
    effectiveRaised: int)

  datatype CreateParams = CreateParams(
    creator: Address,
    description: string,
    fundingGoal: int,
    durationDays: nat,
    category: Category,
    hasRevenueSharing: bool,
    revenueShare: nat,
    maxPerUser: int)

  datatype Milestone = Milestone(id: nat, description: string, payoutBps: nat, verified: bool)

  datatype Reserve = Reserve(amount: int, releaseTime: nat, released: bool)
}
