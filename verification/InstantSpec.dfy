/**
 The transactions of the contract that pays on approval, each as an ordered list of
 checks and, when they all pass, one change of the state. A rejected transaction
 changes nothing: the host rolls back.
 */
module InstantSpec {
  import opened Prelude
  import opened Tokens
  import opened InstantTypes

  /** Quests, their submissions and the badges. */
  datatype QuestOp =
    | Register(id: Symbol, creator: Address, asset: Address, reward: i128, verifier: Address,
               deadline: u64, maxParticipants: u32)
    | UpdateStatus(quest: Symbol, caller: Address, status: QuestStatus)
    | Submit(quest: Symbol, submitter: Address, proof: Hash)
    | Approve(quest: Symbol, submitter: Address, verifier: Address)
    | Reject(quest: Symbol, submitter: Address, verifier: Address)
    | GrantBadge(user: Address, badge: Symbol, admin: Address)
    | Expire(quest: Symbol, caller: Address)
    | Cancel(quest: Symbol, caller: Address)

  datatype EscrowOp =
    | Deposit(quest: Symbol, creator: Address, amount: i128)
    | Withdraw(quest: Symbol, creator: Address)
    | EmergencyWithdraw(quest: Symbol, creator: Address)

  /** Administration: the configuration and the emergency pause. */
  datatype ControlOp =
    | Initialize(admin: Address)
    | UpdateConfig(admin: Address, newAdmin: Option<Address>)
    | InitializePause(admin: Address, delay: u64, required: u32, grace: u64)
    | RequestPause(requester: Address, reason: Option<Symbol>)
    | CancelPauseRequest(admin: Address)
    | Unpause(admin: Address)
    | UpdatePauseConfig(admin: Address, newDelay: Option<u64>, newRequired: Option<u32>, newGrace: Option<u64>)

  /** What happens around the contract: time passes, others move tokens, issuers mint. */
  datatype OutsideEvent =
    | Tick(elapsed: u64)
    | Move(asset: Address, from: Address, to: Address, units: Units)
    | Issue(asset: Address, to: Address, units: Units)

  datatype Call =
    | OnQuest(quest: QuestOp)
    | OnEscrow(escrow: EscrowOp)
    | Control(op: ControlOp)
    | Outside(event: OutsideEvent)

  datatype Tx = Tx(auth: set<Address>, call: Call)

  // ----- pause tests -----

  /** The test in front of registering, submitting and approving. */
  function PauseGuard(s: State): Verdict {
    if s.pause.None? || !s.pause.value.isPaused then Pass else
      var p := s.pause.value;
      :- Need(p.pauseTimestamp + p.timelockDelay <= U64_MAX, HostTrap);
      Need(s.now < p.pauseTimestamp + p.timelockDelay, ContractPaused)
  }

  /** The pause is in force: marked, and its timelock has run out. */
  predicate PauseInForce(s: State) {
    && s.pause.Some? && s.pause.value.isPaused
    && s.pause.value.pauseTimestamp + s.pause.value.timelockDelay <= U64_MAX
    && s.now >= s.pause.value.pauseTimestamp + s.pause.value.timelockDelay
  }

  // ----- checks -----

  function AdminCheck(s: State, auth: set<Address>, admin: Address): Verdict {
    if !Signed(auth, admin) then Fail(HostTrap) else
    :- Need(s.admin.Some?, NotInitialized);
    Need(s.admin.value == admin, Unauthorized)
  }

  function CreatorCheck(s: State, auth: set<Address>, q: Symbol, caller: Address): Verdict {
    if !Signed(auth, caller) then Fail(HostTrap) else
    :- Need(q in s.quests, QuestNotFound);
    Need(s.quests[q].creator == caller, Unauthorized)
  }

  function VerifierCheck(s: State, auth: set<Address>, q: Symbol, u: Address, v: Address): Verdict {
    if !Signed(auth, v) then Fail(HostTrap) else
    :- Need(q in s.quests, QuestNotFound);
    :- Need(s.quests[q].verifier == v, Unauthorized);
    :- Need((q, u) in s.subs, SubmissionNotFound);
    Need(s.subs[(q, u)].status.Pending?, InvalidSubmissionStatus)
  }

  function RegisterCheck(s: State, auth: set<Address>, c: QuestOp): Verdict
    requires c.Register?
  {
    var running := PauseGuard(s);
    :- running;
    :- Need(Signed(auth, c.creator), HostTrap);
    :- Need(0 < c.reward, InvalidRewardAmount);
    :- Need(0 < c.maxParticipants, InvalidParticipantLimit);
    :- Need(s.now < c.deadline, InvalidDeadline);
    Need(c.id !in s.quests, QuestAlreadyExists)
  }

  /** A late submission finds its quest auto-expired, so it is reported as not active. */
  function SubmitCheck(s: State, auth: set<Address>, q: Symbol, u: Address): Verdict {
    var running := PauseGuard(s);
    :- running;
    :- Need(Signed(auth, u), HostTrap);
    :- Need(q in s.quests, QuestNotFound);
    :- Need(s.quests[q].status.Active? && s.now <= s.quests[q].deadline, QuestNotActive);
    :- Need(!Full(s.quests[q]), QuestFull);
    Need((q, u) !in s.subs, SubmissionAlreadyExists)
  }

  /** No overflow of the 32-bit reputation counters. */
  predicate HasRoomFor(stats: UserStats, xp: u32) {
    stats.totalXp + xp <= U32_MAX && stats.questsCompleted < U32_MAX
  }

  predicate StatsHaveRoom(s: State, u: Address) {
    HasRoomFor(StatsOf(s, u), XP_PER_QUEST)
  }

  function ApproveCheck(s: State, auth: set<Address>, q: Symbol, u: Address, v: Address): Verdict {
    var running := PauseGuard(s);
    :- running;
    :- Need(q in s.quests, QuestNotFound);
    :- Need(s.quests[q].reward <= EscrowOf(s, q), InsufficientEscrow);
    :- VerifierCheck(s, auth, q, u, v);
    :- Need(!Full(s.quests[q]), QuestFull);
    :- Need(CanTransfer(s.tokens, s.quests[q].asset, Contract, u, s.quests[q].reward), HostTrap);
    Need(StatsHaveRoom(s, u), HostTrap)
  }

  function DepositCheck(s: State, auth: set<Address>, q: Symbol, creator: Address, amount: i128): Verdict {
    if !Signed(auth, creator) then Fail(HostTrap) else
    :- Need(0 < amount, InvalidEscrowAmount);
    :- CreatorCheck(s, auth, q, creator);
    :- Need(!Terminal(s.quests[q].status), QuestNotActive);
    :- Need(CanTransfer(s.tokens, s.quests[q].asset, creator, Contract, amount), HostTrap);
    Need(EscrowOf(s, q) + amount <= I128_MAX, HostTrap)
  }

  function WithdrawCheck(s: State, auth: set<Address>, q: Symbol, creator: Address): Verdict {
    var creatorOk := CreatorCheck(s, auth, q, creator);
    :- creatorOk;
    :- Need(Terminal(s.quests[q].status), QuestStillActive);
    :- Need(0 < EscrowOf(s, q), NoEscrowBalance);
    Need(CanTransfer(s.tokens, s.quests[q].asset, Contract, creator, EscrowOf(s, q)), HostTrap)
  }

  /** During a pause in force the emergency exit closes once the grace period is over. */
  function WindowCheck(s: State): Verdict {
    if s.pause.None? then Fail(NotInitialized) else
    :- Need(!s.pause.value.isPaused || s.pause.value.pauseTimestamp + s.pause.value.timelockDelay <= U64_MAX, HostTrap);
    if !PauseInForce(s) then Pass else
      :- Need(s.pause.value.lastPauseTime + s.pause.value.gracePeriod <= U64_MAX, HostTrap);
      Need(s.now < s.pause.value.lastPauseTime + s.pause.value.gracePeriod, EmergencyWindowClosed)
  }

  function StatusCheck(s: State, auth: set<Address>, q: Symbol, caller: Address, blocked: set<QuestStatus>): Verdict {
    var creatorOk := CreatorCheck(s, auth, q, caller);
    :- creatorOk;
    Need(s.quests[q].status !in blocked, InvalidStatusTransition)
  }

  const TERMINAL: set<QuestStatus> := {Completed, Expired, Cancelled}

  function PauseConfigured(s: State): Verdict {
    Need(s.pause.Some?, NotInitialized)
  }

  function ControlCheck(s: State, auth: set<Address>, op: ControlOp): Verdict {
    match op
    case Initialize(admin) => :- Need(Signed(auth, admin), HostTrap); Need(s.admin.None?, AlreadyInitialized)
    case UpdateConfig(admin, _) => AdminCheck(s, auth, admin)
    case InitializePause(admin, _, _, _) => AdminCheck(s, auth, admin)
    case RequestPause(requester, _) =>
      :- Need(Signed(auth, requester), HostTrap);
      :- PauseConfigured(s);
      Need(requester !in s.pause.value.signers, AlreadySigned)
    case CancelPauseRequest(admin) =>
      :- AdminCheck(s, auth, admin);
      :- PauseConfigured(s);
      Need(!s.pause.value.isPaused, InvalidPauseState)
    case Unpause(admin) =>
      :- Need(Signed(auth, admin), HostTrap);
      :- PauseConfigured(s);
      :- AdminCheck(s, auth, admin);
      Need(s.pause.value.isPaused, InvalidPauseState)
    case UpdatePauseConfig(admin, _, _, _) => :- AdminCheck(s, auth, admin); PauseConfigured(s)
  }

  function OutsideCheck(s: State, auth: set<Address>, event: OutsideEvent): Verdict {
    match event
    case Tick(elapsed) => Need(s.now + elapsed <= U64_MAX, HostTrap)
    case Move(asset, from, to, units) =>
      Need(Signed(auth, from) && CanTransfer(s.tokens, asset, from, to, units), HostTrap)
    case Issue(asset, to, units) => Need(CanMint(s.tokens, asset, to, units), HostTrap)
  }

  function QuestCheck(s: State, auth: set<Address>, op: QuestOp): Verdict {
    match op
    case Register(_, _, _, _, _, _, _) => RegisterCheck(s, auth, op)
    case UpdateStatus(q, caller, _) => StatusCheck(s, auth, q, caller, TERMINAL)
    case Submit(q, u, _) => SubmitCheck(s, auth, q, u)
    case Approve(q, u, v) => ApproveCheck(s, auth, q, u, v)
    case Reject(q, u, v) => VerifierCheck(s, auth, q, u, v)
    case GrantBadge(user, _, admin) => :- AdminCheck(s, auth, admin); Need(user in s.stats, UserStatsNotFound)
    case Expire(q, caller) => StatusCheck(s, auth, q, caller, {Expired, Completed})
    case Cancel(q, caller) => StatusCheck(s, auth, q, caller, TERMINAL)
  }

  function EscrowCheck(s: State, auth: set<Address>, op: EscrowOp): Verdict {
    match op
    case Deposit(q, creator, amount) => DepositCheck(s, auth, q, creator, amount)
    case Withdraw(q, creator) => WithdrawCheck(s, auth, q, creator)
    case EmergencyWithdraw(q, creator) => :- WindowCheck(s); WithdrawCheck(s, auth, q, creator)
  }

  function Check(s: State, tx: Tx): Verdict {
    match tx.call
    case OnQuest(op) => QuestCheck(s, tx.auth, op)
    case OnEscrow(op) => EscrowCheck(s, tx.auth, op)
    case Control(op) => ControlCheck(s, tx.auth, op)
    case Outside(event) => OutsideCheck(s, tx.auth, event)
  }

  // ----- effects -----

  function WithStatus(s: State, q: Symbol, status: QuestStatus): State
    requires q in s.quests
  {
    s.(quests := s.quests[q := s.quests[q].(status := status)])
  }

  function WithSubmissionStatus(s: State, q: Symbol, u: Address, status: SubmissionStatus): State
    requires (q, u) in s.subs
  {
    s.(subs := s.subs[(q, u) := s.subs[(q, u)].(status := status)])
  }

  /** One more claim; the quest completes when that fills it while it is active. */
  function Claimed(quest: Quest): Quest
    requires !Full(quest)
  {
    var more := quest.(totalClaims := quest.totalClaims + 1);
    if Full(more) && more.status.Active? then more.(status := Completed) else more
  }

  function AwardedXp(stats: UserStats, xp: u32): UserStats
    requires HasRoomFor(stats, xp)
  {
    UserStats(stats.totalXp + xp, LevelOf(stats.totalXp + xp), stats.questsCompleted + 1, stats.badges)
  }

  function Awarded(stats: UserStats): UserStats
    requires HasRoomFor(stats, XP_PER_QUEST)
  {
    AwardedXp(stats, XP_PER_QUEST)
  }

  function Badged(stats: UserStats, badge: Symbol): UserStats {
    if badge in stats.badges then stats else stats.(badges := stats.badges + [badge])
  }

  function RegisterEffect(s: State, c: QuestOp): State
    requires c.Register? && 0 <= c.reward
  {
    s.(quests := s.quests[c.id :=
        Quest(c.id, c.creator, c.asset, c.reward, c.verifier, c.deadline, Active, c.maxParticipants, 0)])
  }

  function SubmitEffect(s: State, q: Symbol, u: Address, proof: Hash): State {
    s.(subs := s.subs[(q, u) := Submission(q, u, proof, Pending, s.now)])
  }

  function BadgeEffect(s: State, user: Address, badge: Symbol): State
    requires user in s.stats
  {
    s.(stats := s.stats[user := Badged(s.stats[user], badge)])
  }

  /** Approval in one step: submission paid, claim counted, escrow and tokens moved, experience awarded. */
  function ApproveEffect(s: State, auth: set<Address>, q: Symbol, u: Address, v: Address): State
    requires ApproveCheck(s, auth, q, u, v).Pass?
  {
    var quest := s.quests[q];
    WithSubmissionStatus(s, q, u, Paid).(
      quests := s.quests[q := Claimed(quest)],
      escrow := s.escrow[q := EscrowOf(s, q) - quest.reward],
      tokens := Transfer(s.tokens, quest.asset, Contract, u, quest.reward),
      stats := s.stats[u := Awarded(StatsOf(s, u))])
  }

  /** A signature starts the clock when it is the first and marks the pause when enough have signed. */
  function PauseRequested(p: PauseState, now: u64, requester: Address, reason: Option<Symbol>): PauseState {
    var signers := p.signers + [requester];
    var reached := |signers| >= p.requiredSignatures;
    p.(signers := signers,
       reason := if reason.Some? then reason else p.reason,
       pauseTimestamp := if |signers| == 1 then now else p.pauseTimestamp,
       isPaused := p.isPaused || reached,
       lastPauseTime := if reached then now else p.lastPauseTime)
  }

  function PauseCleared(p: PauseState): PauseState {
    p.(isPaused := false, signers := [], pauseTimestamp := 0, reason := None)
  }

  function Or<T>(o: Option<T>, default: T): T {
    if o.Some? then o.value else default
  }

  function AdminAfter(s: State, op: ControlOp): Option<Address> {
    match op
    case Initialize(admin) => Some(admin)
    case UpdateConfig(admin, newAdmin) => Some(Or(newAdmin, admin))
    case _ => s.admin
  }

  function PauseAfter(s: State, op: ControlOp): Option<PauseState> {
    if op.InitializePause? then Some(PauseState(false, 0, op.delay, [], op.required, 0, op.grace, None))
    else if s.pause.None? then None
    else Some(PauseStateAfter(s.pause.value, s.now, op))
  }

  function PauseStateAfter(p: PauseState, now: u64, op: ControlOp): PauseState {
    match op
    case RequestPause(requester, reason) => PauseRequested(p, now, requester, reason)
    case CancelPauseRequest(_) => PauseCleared(p)
    case Unpause(_) => PauseCleared(p)
    case UpdatePauseConfig(_, delay, required, grace) =>
      p.(timelockDelay := Or(delay, p.timelockDelay),
         requiredSignatures := Or(required, p.requiredSignatures),
         gracePeriod := Or(grace, p.gracePeriod))
    case _ => p
  }

  function NowAfter(s: State, event: OutsideEvent): u64
    requires event.Tick? ==> s.now + event.elapsed <= U64_MAX
  {
    if event.Tick? then s.now + event.elapsed else s.now
  }

  function TokensAfter(s: State, auth: set<Address>, event: OutsideEvent): Ledger
    requires OutsideCheck(s, auth, event).Pass?
  {
    match event
    case Tick(_) => s.tokens
    case Move(asset, from, to, units) => Transfer(s.tokens, asset, from, to, units)
    case Issue(asset, to, units) => Mint(s.tokens, asset, to, units)
  }

  function QuestEffect(s: State, auth: set<Address>, op: QuestOp): State
    requires QuestCheck(s, auth, op).Pass?
  {
    match op
    case Register(_, _, _, _, _, _, _) => RegisterEffect(s, op)
    case UpdateStatus(q, _, status) => WithStatus(s, q, status)
    case Submit(q, u, proof) => SubmitEffect(s, q, u, proof)
    case Approve(q, u, v) => ApproveEffect(s, auth, q, u, v)
    case Reject(q, u, _) => WithSubmissionStatus(s, q, u, Rejected)
    case GrantBadge(user, badge, _) => BadgeEffect(s, user, badge)
    case Expire(q, _) => WithStatus(s, q, Expired)
    case Cancel(q, _) => WithStatus(s, q, Cancelled)
  }

  /** A deposit adds what the creator pays in; a withdrawal empties the balance to the creator. */
  function EscrowEffect(s: State, auth: set<Address>, op: EscrowOp): State
    requires EscrowCheck(s, auth, op).Pass?
  {
    var asset := s.quests[op.quest].asset;
    if op.Deposit? then
      s.(escrow := s.escrow[op.quest := EscrowOf(s, op.quest) + op.amount],
         tokens := Transfer(s.tokens, asset, op.creator, Contract, op.amount))
    else
      s.(escrow := s.escrow[op.quest := 0],
         tokens := Transfer(s.tokens, asset, Contract, op.creator, EscrowOf(s, op.quest)))
  }

  function Effect(s: State, tx: Tx): State
    requires Check(s, tx).Pass?
  {
    match tx.call
    case OnQuest(op) => QuestEffect(s, tx.auth, op)
    case OnEscrow(op) => EscrowEffect(s, tx.auth, op)
    case Control(op) => s.(admin := AdminAfter(s, op), pause := PauseAfter(s, op))
    case Outside(event) => s.(now := NowAfter(s, event), tokens := TokensAfter(s, tx.auth, event))
  }

  /** One transaction: its effect when every check passes, otherwise nothing. */
  function Next(s: State, tx: Tx): State {
    if Check(s, tx).Pass? then Effect(s, tx) else s
  }

  /** The state after a whole sequence of transactions, accepted and rejected. */
  function Run(s: State, txs: seq<Tx>): State {
    if txs == [] then s
    else Next(Run(s, txs[..|txs| - 1]), txs[|txs| - 1])
  }
}
