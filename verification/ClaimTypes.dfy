/** Entities of the contract with a separate claim step (contracts/earn-quest). */
module ClaimTypes {
  import opened Prelude
  import opened Tokens

  const MAX_REWARD_AMOUNT: int := 1_000_000_000_000_000
  const MAX_BADGES_COUNT: int := 50
  const MAX_QUEST_CLAIMS: int := 10_000
  const MAX_BATCH: int := 50
  const XP_PER_CLAIM: int := 100
  const DEFAULT_THRESHOLD: u32 := 2

  datatype QuestStatus = Active | Paused | Completed | Expired | Cancelled

  predicate Terminal(status: QuestStatus) {
    status.Completed? || status.Expired? || status.Cancelled?
  }

  datatype SubmissionStatus = Pending | Approved | Rejected | Paid

  datatype Quest = Quest(
    id: Symbol, creator: Address, asset: Address, reward: i128, verifier: Address,
    deadline: u64, status: QuestStatus, totalClaims: u32)

  datatype Submission = Submission(
    quest: Symbol, submitter: Address, proof: Hash, status: SubmissionStatus, timestamp: u64)

  type SubmissionKey = (Symbol, Address)

  const MAX_TITLE := 80
  const MAX_CATEGORY := 40
  const MAX_TAG := 32
  const MAX_REQUIREMENT := 200
  const MAX_INLINE_DESCRIPTION := 1200
  const MAX_TAGS := 15
  const MAX_REQUIREMENTS := 20

  datatype Description = Inline(text: string) | Digest(hash: Hash)

  datatype QuestMetadata = QuestMetadata(
    title: string, description: Description, requirements: seq<string>, category: string, tags: seq<string>)

  datatype Badge = Rookie | Explorer | Veteran | Master | Legend

  datatype UserStats = UserStats(xp: u64, level: u32, questsCompleted: u32, badges: seq<Badge>)

  function LevelOf(xp: int): u32 {
    if xp >= 1500 then 5 else if xp >= 1000 then 4 else if xp >= 600 then 3 else if xp >= 300 then 2 else 1
  }

  /**
   The three running totals of a quest's escrow. They are plain integers: where the
   source's i128 would overflow, the transaction's checks trap.
   */
  datatype EscrowInfo = EscrowInfo(
    quest: Symbol, depositor: Address, token: Address, deposited: int, paidOut: int, refunded: int,
    active: bool, createdAt: u64, depositCount: u32)

  function Available(e: EscrowInfo): int {
    e.deposited - e.paidOut - e.refunded
  }

  predicate FitsI128(x: int) {
    -I128_MAX - 1 <= x <= I128_MAX
  }

  /** No i128 overflow in the totals or in computing what is available. */
  predicate TotalsFit(e: EscrowInfo) {
    && FitsI128(e.deposited) && FitsI128(e.paidOut) && FitsI128(e.refunded)
    && FitsI128(e.deposited - e.paidOut) && FitsI128(Available(e))
  }

  datatype QuestInput = QuestInput(id: Symbol, asset: Address, reward: i128, verifier: Address, deadline: u64)

  datatype ApprovalInput = ApprovalInput(quest: Symbol, submitter: Address)

  function KeyOf(item: ApprovalInput): SubmissionKey {
    (item.quest, item.submitter)
  }

  datatype Error =
    | QuestAlreadyExists | QuestNotFound | InvalidRewardAmount | Unauthorized | SubmissionNotFound
    | InsufficientBalance | TransferFailed | AlreadyClaimed | ContractPaused | TimelockNotExpired
    | AlreadyApproved | InsufficientApprovals | DeadlineInPast | ArrayTooLong | InvalidStatusTransition
    | AmountTooLarge | StringTooLong | InvalidAddress | QuestExpired | QuestNotActive | InsufficientEscrow
    | EscrowNotFound | EscrowInactive | NoFundsToWithdraw | QuestNotTerminal | TokenMismatch
    | HostTrap  // a missing signature, a panic or an arithmetic overflow

  type Verdict = Outcome<Error>

  /** The contract's event log, one constructor for each topic. */
  datatype Event =
    | QuestRegistered(quest: Symbol, creator: Address, asset: Address, reward: i128, verifier: Address, deadline: u64)
    | QuestPaused(quest: Symbol, admin: Address)
    | QuestResumed(quest: Symbol, admin: Address)
    | QuestCancelled(quest: Symbol, creator: Address, amount: int)
    | ProofSubmitted(quest: Symbol, submitter: Address, proof: Hash)
    | SubmissionApproved(quest: Symbol, submitter: Address, verifier: Address)
    | RewardClaimed(quest: Symbol, submitter: Address, asset: Address, amount: int)
    | XpAwarded(user: Address, xp: int, total: int, level: u32)
    | LevelUp(user: Address, level: u32)
    | BadgeGranted(user: Address, badge: Badge)
    | EscrowDeposited(quest: Symbol, depositor: Address, amount: int, balance: int)
    | EscrowPayout(quest: Symbol, recipient: Address, amount: int, balance: int)
    | EscrowRefunded(quest: Symbol, recipient: Address, amount: int)
    | EmergencyPaused(admin: Address)
    | EmergencyUnpaused(admin: Address)
    | EmergencyWithdrawn(admin: Address, asset: Address, to: Address, amount: int)
    | UnpauseApproved(admin: Address)
    | TimelockScheduled(time: u64)

  /** The emergency pause: approvals are kept for each round, with a counter for the current one. */
  datatype PauseGuard = PauseGuard(
    paused: bool, round: u32, approvals: set<(u32, Address)>, approvalCount: u32,
    threshold: u32, timelock: u64, scheduled: Option<u64>)

  datatype State = State(
    now: u64, tokens: Ledger, initialized: bool, admins: set<Address>, guard: PauseGuard,
    quests: map<Symbol, Quest>, questIds: seq<Symbol>, subs: map<SubmissionKey, Submission>,
    stats: map<Address, UserStats>, escrows: map<Symbol, EscrowInfo>, metadata: map<Symbol, QuestMetadata>,
    log: seq<Event>)

  const GENESIS := State(
    0, map[], false, {}, PauseGuard(false, 0, {}, 0, DEFAULT_THRESHOLD, 0, None),
    map[], [], map[], map[], map[], map[], [])

  function StatsOf(s: State, u: Address): UserStats {
    if u in s.stats then s.stats[u] else UserStats(0, 1, 0, [])
  }
}
