/**
 The transactions of the contract with a separate claim step: ordered checks, one effect
 on the state and the events it appends to the log. A rejected transaction changes nothing.
 */
module ClaimSpec {
  import opened Prelude
  import opened Tokens
  import opened ClaimTypes

  datatype QuestOp =
    | Register(creator: Address, item: QuestInput)
    | RegisterBatch(creator: Address, items: seq<QuestInput>)
    | RegisterDescribed(creator: Address, item: QuestInput, metadata: QuestMetadata)
    | Describe(quest: Symbol, updater: Address, metadata: QuestMetadata)
    | PauseQuest(caller: Address, quest: Symbol)
    | ResumeQuest(caller: Address, quest: Symbol)
    | Submit(quest: Symbol, submitter: Address, proof: Hash)
    | Approve(quest: Symbol, submitter: Address, verifier: Address)
    | ApproveBatch(verifier: Address, approvals: seq<ApprovalInput>)
    | Claim(quest: Symbol, submitter: Address)
    | GrantBadge(caller: Address, user: Address, badge: Badge)

  datatype EscrowOp =
    | Deposit(quest: Symbol, creator: Address, token: Address, amount: i128)
    | Cancel(quest: Symbol, creator: Address)
    | Expire(quest: Symbol, creator: Address)
    | Withdraw(quest: Symbol, creator: Address)

  datatype GuardOp =
    | Initialize(caller: Address)
    | AddAdmin(caller: Address, admin: Address)
    | RemoveAdmin(caller: Address, admin: Address)
    | EmergencyPause(caller: Address)
    | ApproveUnpause(caller: Address)
    | Unpause(caller: Address)
    | SetThreshold(caller: Address, threshold: u32)
    | SetTimelock(caller: Address, seconds: u64)
    | EmergencyWithdraw(caller: Address, asset: Address, to: Address, amount: i128)

  /** What happens around the contract: time passes, others move tokens, issuers mint. */
  datatype OutsideEvent =
    | Tick(elapsed: u64)
    | Move(asset: Address, from: Address, to: Address, units: Units)
    | Issue(asset: Address, to: Address, units: Units)

  datatype Call =
    | OnQuest(quest: QuestOp)
    | OnEscrow(escrow: EscrowOp)
    | OnGuard(op: GuardOp)
    | Outside(event: OutsideEvent)

  datatype Tx = Tx(auth: set<Address>, call: Call)

  // ----- checks shared by several transactions -----

  function Running(s: State): Verdict {
    Need(!s.guard.paused, ContractPaused)
  }

  /** Not paused, and signed by the one the transaction is for. */
  function Entry(s: State, auth: set<Address>, who: Address): Verdict {
    var running := Running(s);
    :- running;
    Need(Signed(auth, who), HostTrap)
  }

  function AdminCheck(s: State, auth: set<Address>, caller: Address): Verdict {
    if !Signed(auth, caller) then Fail(HostTrap) else
    Need(caller in s.admins, Unauthorized)
  }

  function AmountCheck(amount: int): Verdict {
    if amount <= 0 then Fail(InvalidRewardAmount) else
    Need(amount <= MAX_REWARD_AMOUNT, AmountTooLarge)
  }

  function BatchSizeCheck(n: nat): Verdict {
    Need(0 < n <= MAX_BATCH, ArrayTooLong)
  }

  predicate QuestTransition(from: QuestStatus, to: QuestStatus) {
    match (from, to)
    case (Active, Paused) => true
    case (Active, Completed) => true
    case (Active, Expired) => true
    case (Active, Cancelled) => true
    case (Paused, Active) => true
    case (Paused, Expired) => true
    case (Paused, Cancelled) => true
    case _ => false
  }

  predicate SubmissionTransition(from: SubmissionStatus, to: SubmissionStatus) {
    match (from, to)
    case (Pending, Approved) => true
    case (Pending, Rejected) => true
    case (Approved, Paid) => true
    case _ => false
  }

  /** An escrow, where there is one, is active and covers the amount. */
  function CoverCheck(s: State, q: Symbol, amount: int): Verdict {
    if q !in s.escrows then Pass else
      var e := s.escrows[q];
      :- Need(e.active, EscrowInactive);
      :- Need(TotalsFit(e), HostTrap);
      Need(amount <= Available(e), InsufficientEscrow)
  }

  // ----- registration -----

  /** The checks of one registration, in the order the batch makes them. */
  function ItemCheck(s: State, creator: Address, item: QuestInput): Verdict {
    if item.id in s.quests then Fail(QuestAlreadyExists) else
    :- AmountCheck(item.reward);
    :- Need(s.now < item.deadline, DeadlineInPast);
    Need(creator != item.verifier, InvalidAddress)
  }

  /** The single entry point validates its arguments before looking at storage. */
  function RegisterCheck(s: State, auth: set<Address>, creator: Address, item: QuestInput): Verdict {
    var entry := Entry(s, auth, creator);
    :- entry;
    :- Need(creator != item.verifier, InvalidAddress);
    :- AmountCheck(item.reward);
    :- Need(s.now < item.deadline, DeadlineInPast);
    Need(item.id !in s.quests, QuestAlreadyExists)
  }

  function Registered(s: State, creator: Address, item: QuestInput): State {
    s.(quests := s.quests[item.id :=
           Quest(item.id, creator, item.asset, item.reward, item.verifier, item.deadline, Active, 0)],
       questIds := s.questIds + [item.id])
  }

  predicate AllShort(texts: seq<string>, max: nat) {
    forall i :: 0 <= i < |texts| ==> |texts[i]| <= max
  }

  /** The bounds on metadata, in the order they are tested. */
  function MetadataCheck(m: QuestMetadata): Verdict {
    if |m.title| > MAX_TITLE then Fail(StringTooLong) else
    :- Need(|m.category| <= MAX_CATEGORY, StringTooLong);
    :- Need(|m.tags| <= MAX_TAGS, ArrayTooLong);
    :- Need(AllShort(m.tags, MAX_TAG), StringTooLong);
    :- Need(|m.requirements| <= MAX_REQUIREMENTS, ArrayTooLong);
    :- Need(AllShort(m.requirements, MAX_REQUIREMENT), StringTooLong);
    Need(m.description.Inline? ==> |m.description.text| <= MAX_INLINE_DESCRIPTION, StringTooLong)
  }

  /** The creator or any admin may describe a quest, whatever its status. */
  function DescribeCheck(s: State, auth: set<Address>, q: Symbol, updater: Address, m: QuestMetadata): Verdict {
    var entry := Entry(s, auth, updater);
    :- entry;
    :- Need(q in s.quests, QuestNotFound);
    :- Need(updater == s.quests[q].creator || updater in s.admins, Unauthorized);
    MetadataCheck(m)
  }

  function Described(s: State, q: Symbol, m: QuestMetadata): State {
    s.(metadata := s.metadata[q := m])
  }

  /** Items are checked one after the other, each against the state its predecessors left. */
  function ItemsCheck(s: State, creator: Address, items: seq<QuestInput>): Verdict
    decreases |items|
  {
    if items == [] then Pass else
      :- ItemCheck(s, creator, items[0]);
      ItemsCheck(Registered(s, creator, items[0]), creator, items[1..])
  }

  function RegisteredAll(s: State, creator: Address, items: seq<QuestInput>): State
    decreases |items|
  {
    if items == [] then s else RegisteredAll(Registered(s, creator, items[0]), creator, items[1..])
  }

  // ----- submissions -----

  function SubmitCheck(s: State, auth: set<Address>, q: Symbol, u: Address): Verdict {
    var entry := Entry(s, auth, u);
    :- entry;
    :- Need(q in s.quests, QuestNotFound);
    :- Need(s.quests[q].status.Active?, QuestNotActive);
    Need(s.now < s.quests[q].deadline, QuestExpired)
  }

  function WithSubmissionStatus(s: State, k: SubmissionKey, status: SubmissionStatus): State
    requires k in s.subs
  {
    s.(subs := s.subs[k := s.subs[k].(status := status)])
  }

  /** The single approval: the verifier is matched with the quest's, and later demanded to differ from it. */
  function ApproveCheck(s: State, auth: set<Address>, q: Symbol, u: Address, v: Address): Verdict {
    var entry := Entry(s, auth, v);
    :- entry;
    :- Need(q in s.quests, QuestNotFound);
    :- Need(v == s.quests[q].verifier, Unauthorized);
    :- Need((q, u) in s.subs, SubmissionNotFound);
    :- Need(SubmissionTransition(s.subs[(q, u)].status, Approved), InvalidStatusTransition);
    :- Need(v != s.quests[q].verifier, InvalidAddress);
    CoverCheck(s, q, s.quests[q].reward)
  }

  function ApprovalCheck(s: State, v: Address, item: ApprovalInput): Verdict {
    if item.quest !in s.quests then Fail(QuestNotFound) else
    :- Need(v == s.quests[item.quest].verifier, Unauthorized);
    :- Need(KeyOf(item) in s.subs, SubmissionNotFound);
    :- Need(SubmissionTransition(s.subs[KeyOf(item)].status, Approved), InvalidStatusTransition);
    CoverCheck(s, item.quest, s.quests[item.quest].reward)
  }

  function ApprovedOne(s: State, item: ApprovalInput): State
    requires KeyOf(item) in s.subs
  {
    WithSubmissionStatus(s, KeyOf(item), Approved)
  }

  /** The approvals one after the other, every quest read afresh. */
  function ApprovalsCheck(s: State, v: Address, items: seq<ApprovalInput>): Verdict
    decreases |items|
  {
    if items == [] then Pass else
      :- ApprovalCheck(s, v, items[0]);
      ApprovalsCheck(ApprovedOne(s, items[0]), v, items[1..])
  }

  function ApprovedAll(s: State, v: Address, items: seq<ApprovalInput>): State
    requires ApprovalsCheck(s, v, items).Pass?
    decreases |items|
  {
    if items == [] then s else ApprovedAll(ApprovedOne(s, items[0]), v, items[1..])
  }

  predicate NoSelfApproval(v: Address, items: seq<ApprovalInput>) {
    forall i :: 0 <= i < |items| ==> v != items[i].submitter
  }

  function ApproveBatchCheck(s: State, auth: set<Address>, v: Address, items: seq<ApprovalInput>): Verdict {
    var entry := Entry(s, auth, v);
    :- entry;
    :- BatchSizeCheck(|items|);
    :- Need(NoSelfApproval(v, items), InvalidAddress);
    ApprovalsCheck(s, v, items)
  }

  // ----- claims -----

  /** No overflow of the counters when this much experience is awarded. */
  predicate HasRoomFor(stats: UserStats, xp: u64) {
    stats.xp + xp <= U64_MAX && stats.questsCompleted < U32_MAX
  }

  predicate StatsHaveRoom(s: State, u: Address) {
    HasRoomFor(StatsOf(s, u), XP_PER_CLAIM)
  }

  function PaidFromEscrow(e: EscrowInfo, amount: int): EscrowInfo {
    e.(paidOut := e.paidOut + amount)
  }

  /** A reward must be positive, in the contract's hands and receivable. */
  function TransferCheck(tokens: Ledger, asset: Address, to: Address, amount: int): Verdict {
    if amount <= 0 then Fail(InvalidRewardAmount) else
    :- Need(amount <= Balance(tokens, asset, Contract), InsufficientBalance);
    Need(CanTransfer(tokens, asset, Contract, to, amount), TransferFailed)
  }

  /** The claim itself: an approved submission, not yet paid, of a quest with claims left. */
  function ClaimableCheck(s: State, q: Symbol, u: Address): Verdict {
    if q !in s.quests then Fail(QuestNotFound) else
    :- Need((q, u) in s.subs, SubmissionNotFound);
    :- Need(!s.subs[(q, u)].status.Paid?, AlreadyClaimed);
    :- Need(SubmissionTransition(s.subs[(q, u)].status, Paid), InvalidStatusTransition);
    Need(s.quests[q].totalClaims < MAX_QUEST_CLAIMS, ArrayTooLong)
  }

  /** The money: covered by the escrow if there is one, transferable, and bookable. */
  function PayoutCheck(s: State, q: Symbol, asset: Address, to: Address, amount: int): Verdict {
    var covered := CoverCheck(s, q, amount);
    :- covered;
    :- TransferCheck(s.tokens, asset, to, amount);
    Need(q in s.escrows ==> TotalsFit(PaidFromEscrow(s.escrows[q], amount)), HostTrap)
  }

  function ClaimCheck(s: State, auth: set<Address>, q: Symbol, u: Address): Verdict {
    var entry := Entry(s, auth, u);
    :- entry;
    :- ClaimableCheck(s, q, u);
    :- PayoutCheck(s, q, s.quests[q].asset, u, s.quests[q].reward);
    Need(StatsHaveRoom(s, u), HostTrap)
  }

  function AwardedXp(stats: UserStats, xp: u64): UserStats
    requires HasRoomFor(stats, xp)
  {
    UserStats(stats.xp + xp, LevelOf(stats.xp + xp), stats.questsCompleted + 1, stats.badges)
  }

  function Awarded(stats: UserStats): UserStats
    requires HasRoomFor(stats, XP_PER_CLAIM)
  {
    AwardedXp(stats, XP_PER_CLAIM)
  }

  /** Tokens to the claimant, the escrow's total if there is an escrow, submission paid, claim counted, experience. */
  function ClaimEffect(s: State, auth: set<Address>, q: Symbol, u: Address): State
    requires ClaimCheck(s, auth, q, u).Pass?
  {
    var quest := s.quests[q];
    s.(tokens := Transfer(s.tokens, quest.asset, Contract, u, quest.reward),
       escrows := if q in s.escrows then s.escrows[q := PaidFromEscrow(s.escrows[q], quest.reward)] else s.escrows,
       subs := s.subs[(q, u) := s.subs[(q, u)].(status := Paid)],
       quests := s.quests[q := quest.(totalClaims := quest.totalClaims + 1)],
       stats := s.stats[u := Awarded(StatsOf(s, u))])
  }

  function ClaimEvents(s: State, auth: set<Address>, q: Symbol, u: Address): seq<Event>
    requires ClaimCheck(s, auth, q, u).Pass?
  {
    var quest := s.quests[q];
    var before := StatsOf(s, u);
    var after := Awarded(before);
    (if q in s.escrows then [EscrowPayout(q, u, quest.reward, Available(s.escrows[q]) - quest.reward)] else [])
    + [RewardClaimed(q, u, quest.asset, quest.reward), XpAwarded(u, XP_PER_CLAIM, after.xp, after.level)]
    + (if after.level > before.level then [LevelUp(u, after.level)] else [])
  }

  // ----- quests and badges -----

  function StatusCheck(s: State, auth: set<Address>, caller: Address, q: Symbol, to: QuestStatus): Verdict {
    var running := Running(s);
    :- running;
    :- AdminCheck(s, auth, caller);
    :- Need(q in s.quests, QuestNotFound);
    Need(QuestTransition(s.quests[q].status, to), InvalidStatusTransition)
  }

  function WithStatus(s: State, q: Symbol, status: QuestStatus): State
    requires q in s.quests
  {
    s.(quests := s.quests[q := s.quests[q].(status := status)])
  }

  function BadgeCheck(s: State, auth: set<Address>, caller: Address, user: Address): Verdict {
    var running := Running(s);
    :- running;
    :- Need(|StatsOf(s, user).badges| < MAX_BADGES_COUNT, ArrayTooLong);
    AdminCheck(s, auth, caller)
  }

  function BadgeEffect(s: State, user: Address, badge: Badge): State {
    var stats := StatsOf(s, user);
    if badge in stats.badges then s else s.(stats := s.stats[user := stats.(badges := stats.badges + [badge])])
  }

  /** The operations that set quests up, as against those that work on them. */
  predicate SetsUp(op: QuestOp) {
    op.Register? || op.RegisterBatch? || op.RegisterDescribed? || op.Describe?
  }

  /** The operations of admins on quests and users. */
  predicate Administers(op: QuestOp) {
    op.PauseQuest? || op.ResumeQuest? || op.GrantBadge?
  }

  function QuestCheck(s: State, auth: set<Address>, op: QuestOp): Verdict {
    match op
    case Register(creator, item) => RegisterCheck(s, auth, creator, item)
    case RegisterBatch(creator, items) =>
      :- Entry(s, auth, creator);
      :- BatchSizeCheck(|items|);
      ItemsCheck(s, creator, items)
    case RegisterDescribed(creator, item, m) => :- RegisterCheck(s, auth, creator, item); MetadataCheck(m)
    case Describe(q, updater, m) => DescribeCheck(s, auth, q, updater, m)
    case PauseQuest(caller, q) => StatusCheck(s, auth, caller, q, Paused)
    case ResumeQuest(caller, q) => StatusCheck(s, auth, caller, q, Active)
    case Submit(q, u, _) => SubmitCheck(s, auth, q, u)
    case Approve(q, u, v) => ApproveCheck(s, auth, q, u, v)
    case ApproveBatch(v, items) => ApproveBatchCheck(s, auth, v, items)
    case Claim(q, u) => ClaimCheck(s, auth, q, u)
    case GrantBadge(caller, user, _) => BadgeCheck(s, auth, caller, user)
  }

  function QuestEffect(s: State, auth: set<Address>, op: QuestOp): State
    requires QuestCheck(s, auth, op).Pass?
  {
    match op
    case Register(creator, item) => Registered(s, creator, item)
    case RegisterBatch(creator, items) => RegisteredAll(s, creator, items)
    case RegisterDescribed(creator, item, m) => Described(Registered(s, creator, item), item.id, m)
    case Describe(q, _, m) => Described(s, q, m)
    case PauseQuest(_, q) => WithStatus(s, q, Paused)
    case ResumeQuest(_, q) => WithStatus(s, q, Active)
    case Submit(q, u, proof) => s.(subs := s.subs[(q, u) := Submission(q, u, proof, Pending, s.now)])
    case Approve(q, u, _) => WithSubmissionStatus(s, (q, u), SubmissionStatus.Approved)
    case ApproveBatch(v, items) => ApprovedAll(s, v, items)
    case Claim(q, u) => ClaimEffect(s, auth, q, u)
    case GrantBadge(_, user, badge) => BadgeEffect(s, user, badge)
  }

  function RegisteredEvent(creator: Address, item: QuestInput): Event {
    QuestRegistered(item.id, creator, item.asset, item.reward, item.verifier, item.deadline)
  }

  function ApprovedEvent(v: Address, item: ApprovalInput): Event {
    SubmissionApproved(item.quest, item.submitter, v)
  }

  function RegisteredEvents(creator: Address, items: seq<QuestInput>): (events: seq<Event>)
    ensures |events| == |items| && forall i :: 0 <= i < |items| ==> events[i] == RegisteredEvent(creator, items[i])
  {
    seq(|items|, i requires 0 <= i < |items| => RegisteredEvent(creator, items[i]))
  }

  function ApprovedEvents(v: Address, items: seq<ApprovalInput>): (events: seq<Event>)
    ensures |events| == |items| && forall i :: 0 <= i < |items| ==> events[i] == ApprovedEvent(v, items[i])
  {
    seq(|items|, i requires 0 <= i < |items| => ApprovedEvent(v, items[i]))
  }

  function QuestEvents(s: State, auth: set<Address>, op: QuestOp): seq<Event>
    requires QuestCheck(s, auth, op).Pass?
  {
    match op
    case Register(creator, item) => [RegisteredEvent(creator, item)]
    case RegisterBatch(creator, items) => RegisteredEvents(creator, items)
    case RegisterDescribed(creator, item, _) => [RegisteredEvent(creator, item)]
    case Describe(_, _, _) => []
    case PauseQuest(caller, q) => [QuestPaused(q, caller)]
    case ResumeQuest(caller, q) => [QuestResumed(q, caller)]
    case Submit(q, u, proof) => [ProofSubmitted(q, u, proof)]
    case Approve(q, u, v) => [SubmissionApproved(q, u, v)]
    case ApproveBatch(v, items) => ApprovedEvents(v, items)
    case Claim(q, u) => ClaimEvents(s, auth, q, u)
    case GrantBadge(_, user, badge) => if badge in StatsOf(s, user).badges then [] else [BadgeGranted(user, badge)]
  }

  // ----- escrow -----

  function CreatorCheck(s: State, auth: set<Address>, q: Symbol, creator: Address): Verdict {
    var entry := Entry(s, auth, creator);
    :- entry;
    :- Need(q in s.quests, QuestNotFound);
    Need(creator == s.quests[q].creator, Unauthorized)
  }

  function EscrowFor(s: State, op: EscrowOp): EscrowInfo {
    if op.quest in s.escrows then s.escrows[op.quest]
    else EscrowInfo(op.quest, op.creator, if op.Deposit? then op.token else op.creator, 0, 0, 0, true, s.now, 0)
  }

  function ToppedUp(e: EscrowInfo, amount: int): EscrowInfo
    requires e.depositCount < U32_MAX
  {
    e.(deposited := e.deposited + amount, depositCount := e.depositCount + 1)
  }

  function DepositCheck(s: State, auth: set<Address>, op: EscrowOp): Verdict
    requires op.Deposit?
  {
    var q := op.quest;
    :- Entry(s, auth, op.creator);
    :- AmountCheck(op.amount);
    :- CreatorCheck(s, auth, q, op.creator);
    :- Need(!Terminal(s.quests[q].status), QuestNotActive);
    :- Need(op.token == s.quests[q].asset, TokenMismatch);
    :- Need(CanTransfer(s.tokens, op.token, op.creator, Contract, op.amount), TransferFailed);
    :- Need(EscrowFor(s, op).active, EscrowInactive);
    :- Need(EscrowFor(s, op).depositCount < U32_MAX, HostTrap);
    Need(TotalsFit(ToppedUp(EscrowFor(s, op), op.amount)), HostTrap)
  }

  function Closed(e: EscrowInfo): EscrowInfo {
    e.(refunded := e.refunded + Available(e), active := false)
  }

  /** The refund of what is left, when the quest has an escrow. */
  function RefundCheck(s: State, q: Symbol): Verdict {
    if q !in s.escrows then Pass else
      var e := s.escrows[q];
      :- Need(TotalsFit(e), HostTrap);
      :- Need(Available(e) > 0 ==> CanTransfer(s.tokens, e.token, Contract, e.depositor, Available(e)), TransferFailed);
      Need(TotalsFit(Closed(e)), HostTrap)
  }

  function RefundAmount(s: State, q: Symbol): int {
    if q in s.escrows then Available(s.escrows[q]) else 0
  }

  function RefundTokens(s: State, q: Symbol): Ledger
    requires RefundCheck(s, q).Pass?
  {
    if RefundAmount(s, q) > 0
    then Transfer(s.tokens, s.escrows[q].token, Contract, s.escrows[q].depositor, RefundAmount(s, q))
    else s.tokens
  }

  function EndCheck(s: State, auth: set<Address>, op: EscrowOp): Verdict
    requires op.Cancel? || op.Expire?
  {
    var creatorOk := CreatorCheck(s, auth, op.quest, op.creator);
    :- creatorOk;
    :- Need(!Terminal(s.quests[op.quest].status), QuestNotActive);
    :- Need(op.Expire? ==> s.now >= s.quests[op.quest].deadline, QuestNotActive);
    RefundCheck(s, op.quest)
  }

  function WithdrawCheck(s: State, auth: set<Address>, op: EscrowOp): Verdict
    requires op.Withdraw?
  {
    var creatorOk := CreatorCheck(s, auth, op.quest, op.creator);
    :- creatorOk;
    :- Need(Terminal(s.quests[op.quest].status), QuestNotTerminal);
    :- Need(op.quest in s.escrows, EscrowNotFound);
    :- Need(TotalsFit(s.escrows[op.quest]), HostTrap);
    :- Need(0 < Available(s.escrows[op.quest]), NoFundsToWithdraw);
    RefundCheck(s, op.quest)
  }

  function EscrowCheck(s: State, auth: set<Address>, op: EscrowOp): Verdict {
    match op
    case Deposit(_, _, _, _) => DepositCheck(s, auth, op)
    case Cancel(_, _) => EndCheck(s, auth, op)
    case Expire(_, _) => EndCheck(s, auth, op)
    case Withdraw(_, _) => WithdrawCheck(s, auth, op)
  }

  function StatusAfter(status: QuestStatus, op: EscrowOp): QuestStatus {
    if op.Cancel? then Cancelled else if op.Expire? then Expired else status
  }

  /** A deposit tops the escrow up; every other operation returns what is left and closes it. */
  function EscrowEffect(s: State, auth: set<Address>, op: EscrowOp): State
    requires EscrowCheck(s, auth, op).Pass?
  {
    var q := op.quest;
    if op.Deposit? then
      s.(tokens := Transfer(s.tokens, op.token, op.creator, Contract, op.amount),
         escrows := s.escrows[q := ToppedUp(EscrowFor(s, op), op.amount)])
    else
      s.(tokens := RefundTokens(s, q),
         escrows := if q in s.escrows then s.escrows[q := Closed(s.escrows[q])] else s.escrows,
         quests := s.quests[q := s.quests[q].(status := StatusAfter(s.quests[q].status, op))])
  }

  function RefundEvents(s: State, q: Symbol): seq<Event> {
    if RefundAmount(s, q) > 0 then [EscrowRefunded(q, s.escrows[q].depositor, RefundAmount(s, q))] else []
  }

  function EscrowEvents(s: State, auth: set<Address>, op: EscrowOp): seq<Event>
    requires EscrowCheck(s, auth, op).Pass?
  {
    match op
    case Deposit(q, creator, _, amount) => [EscrowDeposited(q, creator, amount, Available(EscrowFor(s, op)) + amount)]
    case Cancel(q, creator) => RefundEvents(s, q) + [QuestCancelled(q, creator, RefundAmount(s, q))]
    case Expire(q, _) => RefundEvents(s, q)
    case Withdraw(q, _) => RefundEvents(s, q)
  }

  // ----- emergency pause -----

  function Saturated(n: int): u32
    requires 0 <= n
  {
    if n <= U32_MAX then n else U32_MAX
  }

  /** An approval of the round stored or removed, the counter following it. */
  function ApprovalSet(g: PauseGuard, admin: Address, approved: bool): PauseGuard {
    if approved == ((g.round, admin) in g.approvals) then g
    else if approved then
      g.(approvals := g.approvals + {(g.round, admin)}, approvalCount := Saturated(g.approvalCount + 1))
    else
      g.(approvals := g.approvals - {(g.round, admin)},
         approvalCount := if g.approvalCount > 0 then g.approvalCount - 1 else 0)
  }

  /** An approval schedules the unpause when it brings the counter to the threshold. */
  predicate Schedules(g: PauseGuard) {
    Saturated(g.approvalCount + 1) >= g.threshold
  }

  function ApproveUnpauseCheck(s: State, auth: set<Address>, caller: Address): Verdict {
    var adminOk := AdminCheck(s, auth, caller);
    :- adminOk;
    :- Need((s.guard.round, caller) !in s.guard.approvals, AlreadyApproved);
    Need(Schedules(s.guard) ==> s.now + s.guard.timelock <= U64_MAX, HostTrap)
  }

  function UnpauseCheck(s: State, auth: set<Address>, caller: Address): Verdict {
    var adminOk := AdminCheck(s, auth, caller);
    :- adminOk;
    :- Need(s.guard.scheduled.Some?, InsufficientApprovals);
    Need(s.now >= s.guard.scheduled.value, TimelockNotExpired)
  }

  function EmergencyWithdrawCheck(s: State, auth: set<Address>, op: GuardOp): Verdict
    requires op.EmergencyWithdraw?
  {
    var amountOk := AmountCheck(op.amount);
    :- amountOk;
    :- AdminCheck(s, auth, op.caller);
    :- Need(s.guard.paused, ContractPaused);
    :- Need(op.amount <= Balance(s.tokens, op.asset, Contract), InsufficientBalance);
    Need(CanTransfer(s.tokens, op.asset, Contract, op.to, op.amount), TransferFailed)
  }

  function GuardCheck(s: State, auth: set<Address>, op: GuardOp): Verdict {
    match op
    case Initialize(caller) => Need(Signed(auth, caller) && !s.initialized, HostTrap)
    case AddAdmin(caller, _) => :- Running(s); AdminCheck(s, auth, caller)
    case RemoveAdmin(caller, _) => :- Running(s); AdminCheck(s, auth, caller)
    case EmergencyPause(caller) => AdminCheck(s, auth, caller)
    case ApproveUnpause(caller) => ApproveUnpauseCheck(s, auth, caller)
    case Unpause(caller) => UnpauseCheck(s, auth, caller)
    case SetThreshold(caller, _) => AdminCheck(s, auth, caller)
    case SetTimelock(caller, _) => AdminCheck(s, auth, caller)
    case EmergencyWithdraw(_, _, _, _) => EmergencyWithdrawCheck(s, auth, op)
  }

  function AdminsAfter(admins: set<Address>, op: GuardOp): set<Address> {
    match op
    case Initialize(caller) => admins + {caller}
    case AddAdmin(_, admin) => admins + {admin}
    case RemoveAdmin(_, admin) => admins - {admin}
    case _ => admins
  }

  function WithApproval(g: PauseGuard, now: u64, caller: Address): PauseGuard
    requires Schedules(g) ==> now + g.timelock <= U64_MAX
  {
    g.(approvals := g.approvals + {(g.round, caller)},
       approvalCount := Saturated(g.approvalCount + 1),
       scheduled := if Schedules(g) then Some(now + g.timelock) else g.scheduled)
  }

  /** Unpausing opens a new round, which forgets the approvals without deleting them. */
  function Unpaused(g: PauseGuard): PauseGuard {
    g.(paused := false, round := Saturated(g.round + 1), approvalCount := 0, scheduled := None)
  }

  function GuardAfter(s: State, auth: set<Address>, op: GuardOp): PauseGuard
    requires GuardCheck(s, auth, op).Pass?
  {
    match op
    case EmergencyPause(_) => s.guard.(paused := true)
    case ApproveUnpause(caller) => WithApproval(s.guard, s.now, caller)
    case Unpause(_) => Unpaused(s.guard)
    case SetThreshold(_, threshold) => s.guard.(threshold := threshold)
    case SetTimelock(_, seconds) => s.guard.(timelock := seconds)
    case _ => s.guard
  }

  function GuardEffect(s: State, auth: set<Address>, op: GuardOp): State
    requires GuardCheck(s, auth, op).Pass?
  {
    s.(initialized := s.initialized || op.Initialize?,
       admins := AdminsAfter(s.admins, op),
       guard := GuardAfter(s, auth, op),
       tokens := if op.EmergencyWithdraw? then Transfer(s.tokens, op.asset, Contract, op.to, op.amount) else s.tokens)
  }

  function GuardEvents(s: State, auth: set<Address>, op: GuardOp): seq<Event>
    requires GuardCheck(s, auth, op).Pass?
  {
    match op
    case EmergencyPause(caller) => [EmergencyPaused(caller)]
    case ApproveUnpause(caller) =>
      [UnpauseApproved(caller)]
      + (if Schedules(s.guard) then [TimelockScheduled(s.now + s.guard.timelock)] else [])
    case Unpause(caller) => [EmergencyUnpaused(caller)]
    case EmergencyWithdraw(caller, asset, to, amount) => [EmergencyWithdrawn(caller, asset, to, amount)]
    case _ => []
  }

  // ----- the outside world -----

  function OutsideCheck(s: State, auth: set<Address>, event: OutsideEvent): Verdict {
    match event
    case Tick(elapsed) => Need(s.now + elapsed <= U64_MAX, HostTrap)
    case Move(asset, from, to, units) =>
      Need(Signed(auth, from) && CanTransfer(s.tokens, asset, from, to, units), HostTrap)
    case Issue(asset, to, units) => Need(CanMint(s.tokens, asset, to, units), HostTrap)
  }

  function OutsideEffect(s: State, auth: set<Address>, event: OutsideEvent): State
    requires OutsideCheck(s, auth, event).Pass?
  {
    match event
    case Tick(elapsed) => s.(now := s.now + elapsed)
    case Move(asset, from, to, units) => s.(tokens := Transfer(s.tokens, asset, from, to, units))
    case Issue(asset, to, units) => s.(tokens := Mint(s.tokens, asset, to, units))
  }

  // ----- transactions and runs -----

  function Check(s: State, tx: Tx): Verdict {
    match tx.call
    case OnQuest(op) => QuestCheck(s, tx.auth, op)
    case OnEscrow(op) => EscrowCheck(s, tx.auth, op)
    case OnGuard(op) => GuardCheck(s, tx.auth, op)
    case Outside(event) => OutsideCheck(s, tx.auth, event)
  }

  function Effect(s: State, tx: Tx): State
    requires Check(s, tx).Pass?
  {
    match tx.call
    case OnQuest(op) => QuestEffect(s, tx.auth, op)
    case OnEscrow(op) => EscrowEffect(s, tx.auth, op)
    case OnGuard(op) => GuardEffect(s, tx.auth, op)
    case Outside(event) => OutsideEffect(s, tx.auth, event)
  }

  function Events(s: State, tx: Tx): seq<Event>
    requires Check(s, tx).Pass?
  {
    match tx.call
    case OnQuest(op) => QuestEvents(s, tx.auth, op)
    case OnEscrow(op) => EscrowEvents(s, tx.auth, op)
    case OnGuard(op) => GuardEvents(s, tx.auth, op)
    case Outside(_) => []
  }

  /** One transaction: effect and events when every check passes, otherwise nothing. */
  function Next(s: State, tx: Tx): State {
    if Check(s, tx).Pass? then Effect(s, tx).(log := s.log + Events(s, tx)) else s
  }

  function Run(s: State, txs: seq<Tx>): State {
    if txs == [] then s
    else Next(Run(s, txs[..|txs| - 1]), txs[|txs| - 1])
  }
}
