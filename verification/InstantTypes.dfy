/** Entities of the contract that pays on approval (Contract/earn-quest). */
module InstantTypes {
  import opened Prelude
  import opened Tokens

  datatype QuestStatus = Active | Paused | Completed | Expired | Cancelled

  predicate Terminal(status: QuestStatus) {
    status.Completed? || status.Expired? || status.Cancelled?
  }

  datatype SubmissionStatus = Pending | Approved | Rejected | Paid

  datatype Quest = Quest(
    id: Symbol, creator: Address, asset: Address, reward: Units, verifier: Address,
    deadline: u64, status: QuestStatus, maxParticipants: u32, totalClaims: u32)

  predicate Full(quest: Quest) {
    quest.totalClaims >= quest.maxParticipants
  }

  datatype Submission = Submission(
    quest: Symbol, submitter: Address, proof: Hash, status: SubmissionStatus, timestamp: u64)

  datatype UserStats = UserStats(totalXp: u32, level: u32, questsCompleted: u32, badges: seq<Symbol>)

  datatype PauseState = PauseState(
    isPaused: bool, pauseTimestamp: u64, timelockDelay: u64, signers: seq<Address>,
    requiredSignatures: u32, lastPauseTime: u64, gracePeriod: u64, reason: Option<Symbol>)

  datatype Error =
    | QuestAlreadyExists | QuestNotFound | QuestFull | QuestExpired | QuestNotActive
    | InvalidRewardAmount | InvalidParticipantLimit | Unauthorized
    | SubmissionNotFound | SubmissionAlreadyExists | InvalidSubmissionStatus
    | UserStatsNotFound | InvalidStatusTransition | InvalidDeadline
    | AlreadyInitialized | NotInitialized
    | InsufficientEscrow | InvalidEscrowAmount | QuestStillActive | NoEscrowBalance
    | ContractPaused | InvalidPauseState | AlreadySigned | EmergencyWindowClosed
    | HostTrap  // a missing signature, a failed token transfer or an arithmetic overflow

  type Verdict = Outcome<Error>
  type SubmissionKey = (Symbol, Address)

  /** Everything a transaction can read or write, with the ledger clock and the token balances. */
  datatype State = State(
    now: u64, tokens: Ledger, admin: Option<Address>, pause: Option<PauseState>,
    quests: map<Symbol, Quest>, subs: map<SubmissionKey, Submission>,
    stats: map<Address, UserStats>, escrow: map<Symbol, Units>)

  const GENESIS := State(0, map[], None, None, map[], map[], map[], map[])

  function EscrowOf(s: State, q: Symbol): Units {
    if q in s.escrow then s.escrow[q] else 0
  }

  function StatsOf(s: State, u: Address): UserStats {
    if u in s.stats then s.stats[u] else UserStats(0, 1, 0, [])
  }

  const XP_PER_QUEST: u32 := 100

  function LevelOf(xp: u32): int {
    xp / 100 + 1
  }
}
