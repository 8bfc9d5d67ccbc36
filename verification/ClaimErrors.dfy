/**
 What a refusal of the contract with a claim step tells its caller: whatever the error says
 is the case, whichever call met it.
 */
module ClaimErrors {
  import opened Prelude
  import opened Tokens
  import opened ClaimTypes
  import opened ClaimSpec
  import opened ClaimInvariant
  import opened ClaimAcceptance

  // ----- setting quests up -----

  /** What is wrong with one registration. */
  predicate ItemCause(s: State, creator: Address, item: QuestInput, e: Error) {
    match e
    case QuestAlreadyExists => item.id in s.quests
    case InvalidRewardAmount => item.reward <= 0
    case AmountTooLarge => item.reward > 1_000_000_000_000_000
    case DeadlineInPast => item.deadline <= s.now
    case InvalidAddress => item.verifier == creator
    case _ => false
  }

  /** In a batch an item is also refused for repeating the id of an earlier one. */
  predicate RegistrationCause(s: State, creator: Address, items: seq<QuestInput>, i: nat, e: Error)
    requires i < |items|
  {
    || ItemCause(s, creator, items[i], e)
    || (e.QuestAlreadyExists? && exists j :: 0 <= j < i && items[j].id == items[i].id)
  }

  lemma {:induction false} BatchErrorHasCause(s: State, creator: Address, items: seq<QuestInput>) returns (i: nat)
    requires ItemsCheck(s, creator, items).Fail?
    ensures i < |items| && RegistrationCause(s, creator, items, i, ItemsCheck(s, creator, items).error)
    decreases |items|
  {
    if ItemCheck(s, creator, items[0]).Fail? {
      i := 0;
    } else {
      var rest, e := items[1..], ItemsCheck(s, creator, items).error;
      var k := BatchErrorHasCause(Registered(s, creator, items[0]), creator, rest);
      i := k + 1;
      if e.QuestAlreadyExists? && rest[k].id != items[0].id && !ItemCause(s, creator, rest[k], e) {
        var j :| 0 <= j < k && rest[j].id == rest[k].id;
        assert items[j + 1].id == items[i].id;
      }
    }
  }

  predicate MetadataCause(m: QuestMetadata, e: Error) {
    match e
    case StringTooLong =>
      || |m.title| > 80 || |m.category| > 40 || (exists tag :: tag in m.tags && |tag| > 32)
      || (exists text :: text in m.requirements && |text| > 200)
      || (m.description.Inline? && |m.description.text| > 1200)
    case ArrayTooLong => |m.tags| > 15 || |m.requirements| > 20
    case _ => false
  }

  lemma MetadataErrorHasCause(m: QuestMetadata)
    requires MetadataCheck(m).Fail?
    ensures MetadataCause(m, MetadataCheck(m).error)
  {
    ShortIff(m.tags, 32);
    ShortIff(m.requirements, 200);
  }

  predicate SetUpCause(s: State, op: QuestOp, e: Error)
    requires SetsUp(op)
  {
    match op
    case Register(creator, item) => ItemCause(s, creator, item, e)
    case RegisterDescribed(creator, item, m) => ItemCause(s, creator, item, e) || MetadataCause(m, e)
    case RegisterBatch(creator, items) =>
      || (e.ArrayTooLong? && (items == [] || |items| > 50))
      || exists i :: 0 <= i < |items| && RegistrationCause(s, creator, items, i, e)
    case Describe(q, updater, m) =>
      || (e.QuestNotFound? && q !in s.quests)
      || (e.Unauthorized? && q in s.quests && updater != s.quests[q].creator && updater !in s.admins)
      || MetadataCause(m, e)
  }

  // ----- work on quests -----

  /** An escrow, where there is one, is closed or has less left than the reward. */
  predicate CoverCause(s: State, q: Symbol, e: Error)
    requires q in s.quests
  {
    q in s.escrows &&
    match e
    case EscrowInactive => !s.escrows[q].active
    case InsufficientEscrow => Available(s.escrows[q]) < s.quests[q].reward
    case _ => false
  }

  /** What is wrong with the approval of one submission. */
  predicate ApprovalCause(s: State, v: Address, item: ApprovalInput, e: Error) {
    if item.quest !in s.quests then e == QuestNotFound
    else match e
      case Unauthorized => v != s.quests[item.quest].verifier
      case SubmissionNotFound => KeyOf(item) !in s.subs
      case InvalidStatusTransition => KeyOf(item) in s.subs && !s.subs[KeyOf(item)].status.Pending?
      case _ => CoverCause(s, item.quest, e)
  }

  /** In a batch an item is also refused because an earlier one has just approved its submission. */
  predicate ItemApprovalCause(s: State, v: Address, items: seq<ApprovalInput>, i: nat, e: Error)
    requires i < |items|
  {
    || ApprovalCause(s, v, items[i], e)
    || (e.InvalidStatusTransition? && exists j :: 0 <= j < i && items[j] == items[i])
  }

  lemma ApprovalErrorHasCause(s: State, v: Address, item: ApprovalInput)
    requires ApprovalCheck(s, v, item).Fail?
    ensures var e := ApprovalCheck(s, v, item).error;
      if e == HostTrap then TotalsOverflow(s, item.quest, 0) else ApprovalCause(s, v, item, e)
  {
  }

  lemma ApprovedCauses(s: State, v: Address, first: ApprovalInput, item: ApprovalInput, e: Error)
    requires KeyOf(first) in s.subs && ApprovalCause(ApprovedOne(s, first), v, item, e)
    ensures ApprovalCause(s, v, item, e) || (e.InvalidStatusTransition? && item == first)
  {
  }

  lemma {:induction false} ApprovalsErrorHasCause(s: State, v: Address, items: seq<ApprovalInput>) returns (i: nat)
    requires ApprovalsCheck(s, v, items).Fail?
    ensures var e := ApprovalsCheck(s, v, items).error;
      i < |items| &&
      if e == HostTrap then TotalsOverflow(s, items[i].quest, 0) else ItemApprovalCause(s, v, items, i, e)
    decreases |items|
  {
    if ApprovalCheck(s, v, items[0]).Fail? {
      ApprovalErrorHasCause(s, v, items[0]);
      i := 0;
    } else {
      var first, rest, e := items[0], items[1..], ApprovalsCheck(s, v, items).error;
      var k := ApprovalsErrorHasCause(ApprovedOne(s, first), v, rest);
      i := k + 1;
      if e == HostTrap {
      } else if ApprovalCause(ApprovedOne(s, first), v, rest[k], e) {
        ApprovedCauses(s, v, first, rest[k], e);
      } else {
        var j :| 0 <= j < k && rest[j] == rest[k];
        assert items[j + 1] == items[i];
      }
    }
  }

  /** What is wrong with a claim. */
  predicate ClaimCause(s: State, q: Symbol, u: Address, e: Error) {
    if q !in s.quests then e == QuestNotFound
    else match e
      case SubmissionNotFound => (q, u) !in s.subs
      case AlreadyClaimed => (q, u) in s.subs && s.subs[(q, u)].status.Paid?
      case InvalidStatusTransition =>
        (q, u) in s.subs && (s.subs[(q, u)].status.Pending? || s.subs[(q, u)].status.Rejected?)
      case ArrayTooLong => s.quests[q].totalClaims >= 10_000
      case InvalidRewardAmount => s.quests[q].reward <= 0
      case InsufficientBalance => Balance(s.tokens, s.quests[q].asset, Contract) < s.quests[q].reward
      case TransferFailed => Balance(s.tokens, s.quests[q].asset, u) + s.quests[q].reward > I128_MAX
      case _ => CoverCause(s, q, e)
  }

  predicate WorkCause(s: State, op: QuestOp, e: Error)
    requires !SetsUp(op)
  {
    match op
    case PauseQuest(caller, q) => StatusCause(s, caller, q, Active, e)
    case ResumeQuest(caller, q) => StatusCause(s, caller, q, Paused, e)
    case Submit(q, _, _) =>
      || (e.QuestNotFound? && q !in s.quests)
      || (e.QuestNotActive? && q in s.quests && !s.quests[q].status.Active?)
      || (e.QuestExpired? && q in s.quests && s.quests[q].deadline <= s.now)
    case Approve(q, u, v) =>
      || (e.InvalidAddress? && q in s.quests && v == s.quests[q].verifier)
      || ApprovalCause(s, v, ApprovalInput(q, u), e)
    case ApproveBatch(v, items) =>
      || (e.ArrayTooLong? && (items == [] || |items| > 50))
      || (e.InvalidAddress? && exists item :: item in items && item.submitter == v)
      || exists i :: 0 <= i < |items| && ItemApprovalCause(s, v, items, i, e)
    case Claim(q, u) => ClaimCause(s, q, u, e)
    case GrantBadge(caller, user, _) =>
      || (e.ArrayTooLong? && |StatsOf(s, user).badges| >= 50)
      || (e.Unauthorized? && caller !in s.admins)
  }

  /** No admin, no quest, or a quest in another status than the one wanted. */
  predicate StatusCause(s: State, caller: Address, q: Symbol, wanted: QuestStatus, e: Error) {
    match e
    case Unauthorized => caller !in s.admins
    case QuestNotFound => q !in s.quests
    case InvalidStatusTransition => q in s.quests && s.quests[q].status != wanted
    case _ => false
  }

  function SignerOf(op: QuestOp): Address {
    match op
    case Register(creator, _) => creator
    case RegisterBatch(creator, _) => creator
    case RegisterDescribed(creator, _, _) => creator
    case Describe(_, updater, _) => updater
    case PauseQuest(caller, _) => caller
    case ResumeQuest(caller, _) => caller
    case Submit(_, submitter, _) => submitter
    case Approve(_, _, verifier) => verifier
    case ApproveBatch(verifier, _) => verifier
    case Claim(_, submitter) => submitter
    case GrantBadge(caller, _, _) => caller
  }

  /** An escrow whose totals overflow: none in a reachable state. */
  predicate TotalsOverflow(s: State, q: Symbol, more: int) {
    q in s.escrows && (!TotalsFit(s.escrows[q]) || !TotalsFit(PaidFromEscrow(s.escrows[q], more)))
  }

  /** A missing signature or an overflow. */
  predicate QuestTrap(s: State, auth: set<Address>, op: QuestOp) {
    || !Signed(auth, SignerOf(op))
    || (op.Approve? && TotalsOverflow(s, op.quest, 0))
    || (op.ApproveBatch? && exists item :: item in op.approvals && TotalsOverflow(s, item.quest, 0))
    || (op.Claim? && !StatsHaveRoom(s, op.submitter))
    || (op.Claim? && op.quest in s.quests && TotalsOverflow(s, op.quest, s.quests[op.quest].reward))
  }

  /** What is wrong when a call on a quest is refused; a pause refuses them all with one error. */
  predicate QuestCause(s: State, auth: set<Address>, op: QuestOp, e: Error) {
    || (e == HostTrap && QuestTrap(s, auth, op))
    || (e == ContractPaused && s.guard.paused)
    || (if SetsUp(op) then SetUpCause(s, op, e) else WorkCause(s, op, e))
  }

  /** What goes wrong before a call looks at storage: a pause, or a missing signature. */
  predicate EntryCause(s: State, auth: set<Address>, who: Address, e: Error) {
    (e == ContractPaused && s.guard.paused) || (e == HostTrap && !Signed(auth, who))
  }

  lemma RegisterErrorHasCause(s: State, auth: set<Address>, creator: Address, item: QuestInput)
    requires RegisterCheck(s, auth, creator, item).Fail?
    ensures var e := RegisterCheck(s, auth, creator, item).error;
      EntryCause(s, auth, creator, e) || ItemCause(s, creator, item, e)
  {
  }

  lemma DescribeErrorHasCause(s: State, auth: set<Address>, q: Symbol, updater: Address, m: QuestMetadata)
    requires DescribeCheck(s, auth, q, updater, m).Fail?
    ensures var e := DescribeCheck(s, auth, q, updater, m).error;
      EntryCause(s, auth, updater, e) || SetUpCause(s, Describe(q, updater, m), e)
  {
    if MetadataCheck(m).Fail? { MetadataErrorHasCause(m); }
  }

  lemma SetUpErrorHasCause(s: State, auth: set<Address>, op: QuestOp)
    requires SetsUp(op) && QuestCheck(s, auth, op).Fail?
    ensures QuestCause(s, auth, op, QuestCheck(s, auth, op).error)
  {
    match op
    case Register(creator, item) => RegisterErrorHasCause(s, auth, creator, item);
    case RegisterDescribed(creator, item, m) =>
      if RegisterCheck(s, auth, creator, item).Fail? {
        RegisterErrorHasCause(s, auth, creator, item);
      } else {
        MetadataErrorHasCause(m);
      }
    case RegisterBatch(creator, items) =>
      if ItemsCheck(s, creator, items).Fail? { var i := BatchErrorHasCause(s, creator, items); }
    case Describe(q, updater, m) => DescribeErrorHasCause(s, auth, q, updater, m);
  }

  lemma ApproveErrorHasCause(s: State, auth: set<Address>, q: Symbol, u: Address, v: Address)
    requires ApproveCheck(s, auth, q, u, v).Fail?
    ensures QuestCause(s, auth, Approve(q, u, v), ApproveCheck(s, auth, q, u, v).error)
  {
  }

  lemma BatchApprovalErrorHasCause(s: State, auth: set<Address>, v: Address, items: seq<ApprovalInput>)
    requires ApproveBatchCheck(s, auth, v, items).Fail?
    ensures QuestCause(s, auth, ApproveBatch(v, items), ApproveBatchCheck(s, auth, v, items).error)
  {
    if Entry(s, auth, v).Pass? && BatchSizeCheck(|items|).Pass? {
      if NoSelfApproval(v, items) {
        var i := ApprovalsErrorHasCause(s, v, items);
        assert items[i] in items;
      } else {
        var i :| 0 <= i < |items| && v == items[i].submitter;
        assert items[i] in items;
      }
    }
  }

  lemma ClaimErrorHasCause(s: State, auth: set<Address>, q: Symbol, u: Address)
    requires ClaimCheck(s, auth, q, u).Fail?
    ensures QuestCause(s, auth, Claim(q, u), ClaimCheck(s, auth, q, u).error)
  {
    if Entry(s, auth, u).Pass? && ClaimableCheck(s, q, u).Pass? {
      PayoutErrorHasCause(s, q, u);
    }
  }

  lemma PayoutErrorHasCause(s: State, q: Symbol, u: Address)
    requires q in s.quests
    ensures var verdict := PayoutCheck(s, q, s.quests[q].asset, u, s.quests[q].reward);
      verdict.Fail? ==>
        if verdict.error == HostTrap then TotalsOverflow(s, q, s.quests[q].reward)
        else ClaimCause(s, q, u, verdict.error)
  {
  }

  lemma QuestErrorHasCause(s: State, auth: set<Address>, op: QuestOp)
    requires QuestCheck(s, auth, op).Fail?
    ensures QuestCause(s, auth, op, QuestCheck(s, auth, op).error)
  {
    if SetsUp(op) {
      SetUpErrorHasCause(s, auth, op);
    } else {
      match op
      case Approve(q, u, v) => ApproveErrorHasCause(s, auth, q, u, v);
      case ApproveBatch(v, items) => BatchApprovalErrorHasCause(s, auth, v, items);
      case Claim(q, u) => ClaimErrorHasCause(s, auth, q, u);
      case _ =>
    }
  }

  // ----- escrow -----

  /** A missing signature, or an overflow of the totals or of the number of deposits. */
  predicate EscrowTrap(s: State, auth: set<Address>, op: EscrowOp) {
    || !Signed(auth, op.creator)
    || (op.quest in s.escrows && (!TotalsFit(s.escrows[op.quest]) || !TotalsFit(Closed(s.escrows[op.quest]))))
    || (op.Deposit? &&
        (EscrowFor(s, op).depositCount >= U32_MAX || !TotalsFit(ToppedUp(EscrowFor(s, op), op.amount))))
  }

  predicate EscrowCause(s: State, auth: set<Address>, op: EscrowOp, e: Error) {
    match e
    case HostTrap => EscrowTrap(s, auth, op)
    case ContractPaused => s.guard.paused
    case InvalidRewardAmount => op.Deposit? && op.amount <= 0
    case AmountTooLarge => op.Deposit? && op.amount > 1_000_000_000_000_000
    case QuestNotFound => op.quest !in s.quests
    case Unauthorized => op.quest in s.quests && s.quests[op.quest].creator != op.creator
    case QuestNotActive =>
      op.quest in s.quests
      && (Terminal(s.quests[op.quest].status) || (op.Expire? && s.now < s.quests[op.quest].deadline))
    case TokenMismatch => op.Deposit? && op.quest in s.quests && op.token != s.quests[op.quest].asset
    case TransferFailed =>
      if op.Deposit? then
        || Balance(s.tokens, op.token, op.creator) < op.amount
        || Balance(s.tokens, op.token, Contract) + op.amount > I128_MAX
      else !Refundable(s, op.quest)
    case EscrowInactive => op.Deposit? && op.quest in s.escrows && !s.escrows[op.quest].active
    case QuestNotTerminal => op.Withdraw? && op.quest in s.quests && !Terminal(s.quests[op.quest].status)
    case EscrowNotFound => op.Withdraw? && op.quest !in s.escrows
    case NoFundsToWithdraw => op.Withdraw? && op.quest in s.escrows && Available(s.escrows[op.quest]) <= 0
    case _ => false
  }

  lemma DepositErrorHasCause(s: State, auth: set<Address>, op: EscrowOp)
    requires op.Deposit? && DepositCheck(s, auth, op).Fail?
    ensures EscrowCause(s, auth, op, DepositCheck(s, auth, op).error)
  {
  }

  lemma RefundErrorHasCause(s: State, auth: set<Address>, op: EscrowOp)
    requires !op.Deposit? && RefundCheck(s, op.quest).Fail?
    ensures EscrowCause(s, auth, op, RefundCheck(s, op.quest).error)
  {
  }

  lemma EndErrorHasCause(s: State, auth: set<Address>, op: EscrowOp)
    requires (op.Cancel? || op.Expire?) && EndCheck(s, auth, op).Fail?
    ensures EscrowCause(s, auth, op, EndCheck(s, auth, op).error)
  {
    if RefundCheck(s, op.quest).Fail? { RefundErrorHasCause(s, auth, op); }
  }

  lemma WithdrawErrorHasCause(s: State, auth: set<Address>, op: EscrowOp)
    requires op.Withdraw? && WithdrawCheck(s, auth, op).Fail?
    ensures EscrowCause(s, auth, op, WithdrawCheck(s, auth, op).error)
  {
    if RefundCheck(s, op.quest).Fail? { RefundErrorHasCause(s, auth, op); }
  }

  lemma EscrowErrorHasCause(s: State, auth: set<Address>, op: EscrowOp)
    requires EscrowCheck(s, auth, op).Fail?
    ensures EscrowCause(s, auth, op, EscrowCheck(s, auth, op).error)
  {
    match op
    case Deposit(_, _, _, _) => DepositErrorHasCause(s, auth, op);
    case Withdraw(_, _) => WithdrawErrorHasCause(s, auth, op);
    case _ => EndErrorHasCause(s, auth, op);
  }

  // ----- governance -----

  /** The emergency withdrawal alone answers "paused" when the contract is not. */
  predicate GuardCause(s: State, auth: set<Address>, op: GuardOp, e: Error) {
    match e
    case HostTrap =>
      || !Signed(auth, op.caller) || (op.Initialize? && s.initialized)
      || (op.ApproveUnpause? && s.now + s.guard.timelock > U64_MAX)
    case Unauthorized => op.caller !in s.admins
    case ContractPaused =>
      if op.EmergencyWithdraw? then !s.guard.paused else s.guard.paused && (op.AddAdmin? || op.RemoveAdmin?)
    case AlreadyApproved => op.ApproveUnpause? && (s.guard.round, op.caller) in s.guard.approvals
    case InsufficientApprovals => op.Unpause? && s.guard.scheduled == None
    case TimelockNotExpired => op.Unpause? && s.guard.scheduled.Some? && s.now < s.guard.scheduled.value
    case InvalidRewardAmount => op.EmergencyWithdraw? && op.amount <= 0
    case AmountTooLarge => op.EmergencyWithdraw? && op.amount > 1_000_000_000_000_000
    case InsufficientBalance => op.EmergencyWithdraw? && Balance(s.tokens, op.asset, Contract) < op.amount
    case TransferFailed => op.EmergencyWithdraw? && Balance(s.tokens, op.asset, op.to) + op.amount > I128_MAX
    case _ => false
  }

  lemma GuardErrorHasCause(s: State, auth: set<Address>, op: GuardOp)
    requires GuardCheck(s, auth, op).Fail?
    ensures GuardCause(s, auth, op, GuardCheck(s, auth, op).error)
  {
  }

  /** Whatever call is refused with an error, what the error says is the case; and nothing has changed. */
  lemma ErrorsTellTheTruth(s: State, tx: Tx)
    requires Check(s, tx).Fail?
    ensures Next(s, tx) == s
    ensures match tx.call
      case OnQuest(op) => QuestCause(s, tx.auth, op, Check(s, tx).error)
      case OnEscrow(op) => EscrowCause(s, tx.auth, op, Check(s, tx).error)
      case OnGuard(op) => GuardCause(s, tx.auth, op, Check(s, tx).error)
      case Outside(_) => Check(s, tx).error == HostTrap
  {
    match tx.call
    case OnQuest(op) => QuestErrorHasCause(s, tx.auth, op);
    case OnEscrow(op) => EscrowErrorHasCause(s, tx.auth, op);
    case OnGuard(op) => GuardErrorHasCause(s, tx.auth, op);
    case Outside(_) =>
  }
}
