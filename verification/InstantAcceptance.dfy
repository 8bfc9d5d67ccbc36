/**
 Exactly which calls the contract that pays on approval accepts, and what a refusal tells
 its caller. The conditions are on what is stored and on the clock, not on the checks.
 */
module InstantAcceptance {
  import opened Prelude
  import opened Tokens
  import opened InstantTypes
  import opened InstantSpec
  import opened InstantInvariant
  import opened InstantRuns
  import opened InstantExit
  import opened InstantStory

  function OnQuestTx(auth: set<Address>, op: QuestOp): Tx {
    Tx(auth, OnQuest(op))
  }

  // ----- quests -----

  /** A registration is accepted exactly when its terms make sense now and the id is new; it stores those terms. */
  lemma RegisterSucceedsIff(s: State, auth: set<Address>, id: Symbol, creator: Address, asset: Address, reward: i128,
      verifier: Address, deadline: u64, limit: u32)
    ensures var tx := OnQuestTx(auth, Register(id, creator, asset, reward, verifier, deadline, limit));
      && (Check(s, tx).Pass? <==>
            Unpaused(s) && Signed(auth, creator) && 0 < reward && 0 < limit && s.now < deadline && id !in s.quests)
      && (Check(s, tx).Pass? ==>
            Next(s, tx) == s.(quests := s.quests[id :=
              Quest(id, creator, asset, reward, verifier, deadline, Active, limit, 0)]))
  {
  }

  /** A change of status by hand, an expiry and a cancellation: whose quest, from which status, to which. */
  lemma StatusChangeSucceedsIff(s: State, auth: set<Address>, q: Symbol, caller: Address, status: QuestStatus)
    ensures var mine := Signed(auth, caller) && q in s.quests && s.quests[q].creator == caller;
      && (Check(s, OnQuestTx(auth, UpdateStatus(q, caller, status))).Pass? <==>
            mine && (s.quests[q].status.Active? || s.quests[q].status.Paused?))
      && (Check(s, OnQuestTx(auth, Cancel(q, caller))).Pass? <==>
            mine && (s.quests[q].status.Active? || s.quests[q].status.Paused?))
      && (Check(s, OnQuestTx(auth, Expire(q, caller))).Pass? <==>
            mine && !s.quests[q].status.Expired? && !s.quests[q].status.Completed?)
  {
  }

  /** What the three leave: the status given, expired, or cancelled, and nothing else changed. */
  lemma StatusChangeSets(s: State, auth: set<Address>, op: QuestOp)
    requires (op.UpdateStatus? || op.Cancel? || op.Expire?) && Check(s, OnQuestTx(auth, op)).Pass?
    ensures op.quest in s.quests
    ensures var status := if op.UpdateStatus? then op.status else if op.Cancel? then Cancelled else Expired;
      Next(s, OnQuestTx(auth, op)) == s.(quests := s.quests[op.quest := s.quests[op.quest].(status := status)])
  {
  }

  // ----- submissions -----

  /** A proof is accepted once per user, for an active quest that is not late and has a place left. */
  lemma SubmitSucceedsIff(s: State, auth: set<Address>, q: Symbol, u: Address, proof: Hash)
    ensures var tx := OnQuestTx(auth, Submit(q, u, proof));
      && (Check(s, tx).Pass? <==>
            && Unpaused(s) && Signed(auth, u) && q in s.quests && s.quests[q].status.Active?
            && s.now <= s.quests[q].deadline && s.quests[q].totalClaims < s.quests[q].maxParticipants
            && (q, u) !in s.subs)
      && (Check(s, tx).Pass? ==> Next(s, tx) == s.(subs := s.subs[(q, u) := Submission(q, u, proof, Pending, s.now)]))
  {
  }

  lemma ApproveMovesTokens(s: State, auth: set<Address>, q: Symbol, u: Address, v: Address)
    requires u.Account? && ApproveCheck(s, auth, q, u, v).Pass?
    ensures var t, t' := s.tokens, ApproveEffect(s, auth, q, u, v).tokens;
      var asset, reward := s.quests[q].asset, s.quests[q].reward;
      && Balance(t', asset, u) == Balance(t, asset, u) + reward
      && Balance(t', asset, Contract) == Balance(t, asset, Contract) - reward
  {
  }

  /** Submission, quest, escrow balance, statistics and tokens after an approval, each on its own. */
  ghost predicate PaidOnApproval(s: State, s': State, q: Symbol, u: Address) {
    && q in s.quests && (q, u) in s.subs
    && s'.subs == s.subs[(q, u) := s.subs[(q, u)].(status := Paid)]
    && ClaimSet(s, s', q, q) && s'.quests == s.quests[q := s'.quests[q]]
    && u in s'.stats && Advanced(StatsOf(s, u), s'.stats[u]) && s'.stats == s.stats[u := s'.stats[u]]
    && var asset, reward := s.quests[q].asset, s.quests[q].reward;
       && EscrowOf(s', q) == EscrowOf(s, q) - reward && s'.escrow == s.escrow[q := EscrowOf(s', q)]
       && Balance(s'.tokens, asset, u) == Balance(s.tokens, asset, u) + reward
       && Balance(s'.tokens, asset, Contract) == Balance(s.tokens, asset, Contract) - reward
  }

  lemma ApprovePays(s: State, auth: set<Address>, q: Symbol, u: Address, v: Address)
    requires u.Account? && ApproveCheck(s, auth, q, u, v).Pass?
    ensures PaidOnApproval(s, ApproveEffect(s, auth, q, u, v), q, u)
  {
    ApproveClaims(s, auth, q, u, v, q);
    ApproveRewards(s, auth, q, u, v, u);
    ApproveMovesTokens(s, auth, q, u, v);
  }

  /**
   An accepted approval pays the reward out of the quest's escrow balance to the submitter,
   marks the submission paid, counts the claim, completes a quest it fills, and adds a
   hundred points.
   */
  lemma {:induction false} ApproveOutcome(txs: seq<Tx>, auth: set<Address>, q: Symbol, u: Address, v: Address)
    requires Check(Run(GENESIS, txs), OnQuestTx(auth, Approve(q, u, v))).Pass?
    ensures PaidOnApproval(Run(GENESIS, txs), Next(Run(GENESIS, txs), OnQuestTx(auth, Approve(q, u, v))), q, u)
  {
    InvGenesis();
    InvRun(GENESIS, txs);
    assert (q, u) in Run(GENESIS, txs).subs && (q, u).1.Account?;
    ApprovePays(Run(GENESIS, txs), auth, q, u, v);
  }

  /** A rejection is accepted exactly from the quest's verifier, paused or not, and makes the submission rejected. */
  lemma RejectSucceedsIff(s: State, auth: set<Address>, q: Symbol, u: Address, v: Address)
    ensures var tx := OnQuestTx(auth, Reject(q, u, v));
      && (Check(s, tx).Pass? <==>
            && Signed(auth, v) && q in s.quests && s.quests[q].verifier == v
            && (q, u) in s.subs && s.subs[(q, u)].status == Pending)
      && (Check(s, tx).Pass? ==>
            Next(s, tx) == s.(subs := s.subs[(q, u) := s.subs[(q, u)].(status := Rejected)]))
  {
  }

  lemma DecidedIsNotPaid(s: State, tx: Tx, k: SubmissionKey)
    requires k in s.subs && !s.subs[k].status.Pending?
    ensures !Pays(s, tx, k)
  {
  }

  lemma {:induction false} DecidedStays(s: State, txs: seq<Tx>, k: SubmissionKey)
    requires Inv(s) && k in s.subs && !s.subs[k].status.Pending?
    ensures k in Run(s, txs).subs && Run(s, txs).subs[k] == s.subs[k] && Payouts(s, txs, k) == 0
  {
    if txs == [] {
    } else {
      DecidedStays(s, txs[..|txs| - 1], k);
      DecidedIsNotPaid(Run(s, txs[..|txs| - 1]), txs[|txs| - 1], k);
      InvRun(s, txs[..|txs| - 1]);
      EvolvesStep(Run(s, txs[..|txs| - 1]), txs[|txs| - 1]);
    }
  }

  /** A rejected submission stays rejected, and unpaid, in every later run. */
  lemma {:induction false} RejectIsFinal(txs: seq<Tx>, auth: set<Address>, q: Symbol, u: Address, v: Address,
      later: seq<Tx>)
    requires Check(Run(GENESIS, txs), OnQuestTx(auth, Reject(q, u, v))).Pass?
    ensures var s := Run(GENESIS, txs);
      var s' := Next(s, OnQuestTx(auth, Reject(q, u, v)));
      && (q, u) in s.subs && (q, u) in Run(s', later).subs
      && Run(s', later).subs[(q, u)] == s.subs[(q, u)].(status := Rejected)
      && Payouts(s', later, (q, u)) == 0
  {
    var s := Run(GENESIS, txs);
    RejectSucceedsIff(s, auth, q, u, v);
    InvGenesis();
    InvRun(GENESIS, txs);
    InvStep(s, OnQuestTx(auth, Reject(q, u, v)));
    DecidedStays(Next(s, OnQuestTx(auth, Reject(q, u, v))), later, (q, u));
  }

  // ----- escrow -----

  /**
   In every reachable state a deposit is accepted from the creator of a quest that can still
   run, of any positive amount the creator has and the contract can hold; no overflow of the
   escrow balance is among the conditions.
   */
  lemma {:induction false} DepositSucceedsIff(txs: seq<Tx>, auth: set<Address>, q: Symbol, creator: Address,
      amount: i128)
    ensures var s := Run(GENESIS, txs);
      Check(s, Tx(auth, OnEscrow(Deposit(q, creator, amount)))).Pass? <==>
        && Signed(auth, creator) && q in s.quests && s.quests[q].creator == creator
        && (s.quests[q].status.Active? || s.quests[q].status.Paused?)
        && 0 < amount <= Balance(s.tokens, s.quests[q].asset, creator)
        && Balance(s.tokens, s.quests[q].asset, Contract) + amount <= I128_MAX
  {
    var s := Run(GENESIS, txs);
    InvGenesis();
    InvRun(GENESIS, txs);
    if q in s.quests { EscrowIsBacked(s, q); }
  }

  /** A deposit moves the amount from the creator into the quest's balance, a withdrawal all of it back. */
  lemma {:induction false} EscrowOutcome(txs: seq<Tx>, auth: set<Address>, op: EscrowOp)
    requires Check(Run(GENESIS, txs), Tx(auth, OnEscrow(op))).Pass?
    ensures var s := Run(GENESIS, txs);
      var s' := Next(s, Tx(auth, OnEscrow(op)));
      && op.quest in s.quests
      && var asset := s.quests[op.quest].asset;
         var paidIn := if op.Deposit? then op.amount as int else -(EscrowOf(s, op.quest) as int);
         && s'.escrow == s.escrow[op.quest := EscrowOf(s', op.quest)]
         && EscrowOf(s', op.quest) == EscrowOf(s, op.quest) + paidIn
         && Balance(s'.tokens, asset, op.creator) == Balance(s.tokens, asset, op.creator) - paidIn
         && Balance(s'.tokens, asset, Contract) == Balance(s.tokens, asset, Contract) + paidIn
         && s' == s.(escrow := s'.escrow, tokens := s'.tokens)
  {
    EscrowKeeps(Run(GENESIS, txs), auth, op);
  }

  // ----- administration -----

  predicate IsAdmin(s: State, auth: set<Address>, admin: Address) {
    Signed(auth, admin) && s.admin == Some(admin)
  }

  /** A badge takes the administrator last named and a user with an approved submission. */
  lemma {:induction false} BadgeSucceedsIff(txs: seq<Tx>, auth: set<Address>, user: Address, badge: Symbol,
      admin: Address)
    ensures Check(Run(GENESIS, txs), OnQuestTx(auth, GrantBadge(user, badge, admin))).Pass? <==>
      Signed(auth, admin) && AdminStory(txs) == Some(admin) && Completions(txs, user) > 0
  {
    AdminIsToldByCalls(txs);
    ReputationIsToldByCalls(txs, user);
  }

  /**
   Which administrative calls are accepted, in terms of who was last named administrator, who
   has asked for the pause since it was last cleared, and whether it is marked.
   */
  lemma {:induction false} ControlSucceedsIff(txs: seq<Tx>, auth: set<Address>, op: ControlOp)
    ensures Check(Run(GENESIS, txs), Tx(auth, Control(op))).Pass? <==>
      match op
      case Initialize(admin) => Signed(auth, admin) && AdminStory(txs) == None
      case UpdateConfig(admin, _) => Signed(auth, admin) && AdminStory(txs) == Some(admin)
      case InitializePause(admin, _, _, _) => Signed(auth, admin) && AdminStory(txs) == Some(admin)
      case RequestPause(requester, _) =>
        Signed(auth, requester) && Configured(txs) && requester !in SignerStory(txs)
      case CancelPauseRequest(admin) =>
        Signed(auth, admin) && AdminStory(txs) == Some(admin) && Configured(txs) && !MarkStory(txs)
      case Unpause(admin) =>
        Signed(auth, admin) && AdminStory(txs) == Some(admin) && Configured(txs) && MarkStory(txs)
      case UpdatePauseConfig(admin, _, _, _) =>
        Signed(auth, admin) && AdminStory(txs) == Some(admin) && Configured(txs)
  {
    AdminIsToldByCalls(txs);
    PauseIsToldByCalls(txs);
  }

  // ----- what a refusal tells -----

  function SignerOf(op: QuestOp): Address {
    match op
    case Register(_, creator, _, _, _, _, _) => creator
    case Submit(_, submitter, _) => submitter
    case Approve(_, _, verifier) => verifier
    case Reject(_, _, verifier) => verifier
    case GrantBadge(_, _, admin) => admin
    case UpdateStatus(_, caller, _) => caller
    case Expire(_, caller) => caller
    case Cancel(_, caller) => caller
  }

  /** The moment a marked pause takes effect cannot be represented. */
  predicate PauseOverflows(s: State) {
    s.pause.Some? && s.pause.value.isPaused && s.pause.value.pauseTimestamp + s.pause.value.timelockDelay > U64_MAX
  }

  /** A missing signature, an overflow, or a payment the tokens refuse. */
  predicate QuestTrap(s: State, auth: set<Address>, op: QuestOp) {
    || !Signed(auth, SignerOf(op))
    || ((op.Register? || op.Submit? || op.Approve?) && PauseOverflows(s))
    || (op.Approve? && !StatsHaveRoom(s, op.submitter))
    || (op.Approve? && op.quest in s.quests &&
        !CanTransfer(s.tokens, s.quests[op.quest].asset, Contract, op.submitter, s.quests[op.quest].reward))
  }

  /** What is wrong when a call on a quest is refused with an error. */
  predicate QuestCause(s: State, auth: set<Address>, op: QuestOp, e: Error) {
    match e
    case HostTrap => QuestTrap(s, auth, op)
    case ContractPaused => PauseInForce(s) && (op.Register? || op.Submit? || op.Approve?)
    case QuestAlreadyExists => op.Register? && op.id in s.quests
    case InvalidRewardAmount => op.Register? && op.reward <= 0
    case InvalidParticipantLimit => op.Register? && op.maxParticipants == 0
    case InvalidDeadline => op.Register? && op.deadline <= s.now
    case UserStatsNotFound => op.GrantBadge? && op.user !in s.stats
    case NotInitialized => op.GrantBadge? && s.admin.None?
    case QuestNotFound => !op.Register? && !op.GrantBadge? && op.quest !in s.quests
    case Unauthorized =>
      && !op.Register? && !op.Submit?
      && (if op.GrantBadge? then s.admin != Some(op.admin)
          else op.quest in s.quests &&
               if op.Approve? || op.Reject? then op.verifier != s.quests[op.quest].verifier
               else op.caller != s.quests[op.quest].creator)
    case _ => !op.Register? && !op.GrantBadge? && op.quest in s.quests && WorkCause(s, s.quests[op.quest], op, e)
  }

  /** The causes that lie in a stored quest or its submissions. */
  predicate WorkCause(s: State, quest: Quest, op: QuestOp, e: Error)
    requires !op.Register? && !op.GrantBadge?
  {
    match e
    case InvalidStatusTransition => Terminal(quest.status) && (op.UpdateStatus? || op.Cancel? || op.Expire?)
    case QuestNotActive => op.Submit? && (!quest.status.Active? || quest.deadline < s.now)
    case QuestFull => (op.Submit? || op.Approve?) && quest.totalClaims >= quest.maxParticipants
    case InsufficientEscrow => op.Approve? && EscrowOf(s, op.quest) < quest.reward
    case SubmissionAlreadyExists => op.Submit? && (op.quest, op.submitter) in s.subs
    case SubmissionNotFound => (op.Approve? || op.Reject?) && (op.quest, op.submitter) !in s.subs
    case InvalidSubmissionStatus =>
      (op.Approve? || op.Reject?) && (op.quest, op.submitter) in s.subs
      && !s.subs[(op.quest, op.submitter)].status.Pending?
    case _ => false
  }

  predicate EscrowTrap(s: State, auth: set<Address>, op: EscrowOp) {
    || !Signed(auth, op.creator)
    || (op.EmergencyWithdraw? && s.pause.Some? && !WindowOpen(s))
    || (op.quest in s.quests &&
        var asset := s.quests[op.quest].asset;
        if op.Deposit? then
          !CanTransfer(s.tokens, asset, op.creator, Contract, op.amount) || EscrowOf(s, op.quest) + op.amount > I128_MAX
        else !CanTransfer(s.tokens, asset, Contract, op.creator, EscrowOf(s, op.quest)))
  }

  predicate EscrowCause(s: State, auth: set<Address>, op: EscrowOp, e: Error) {
    match e
    case HostTrap => EscrowTrap(s, auth, op)
    case InvalidEscrowAmount => op.Deposit? && op.amount <= 0
    case QuestNotFound => op.quest !in s.quests
    case Unauthorized => op.quest in s.quests && s.quests[op.quest].creator != op.creator
    case QuestNotActive => op.Deposit? && op.quest in s.quests && Terminal(s.quests[op.quest].status)
    case QuestStillActive => !op.Deposit? && op.quest in s.quests && !Terminal(s.quests[op.quest].status)
    case NoEscrowBalance => !op.Deposit? && EscrowOf(s, op.quest) == 0
    case NotInitialized => op.EmergencyWithdraw? && s.pause.None?
    case EmergencyWindowClosed => op.EmergencyWithdraw? && !WindowOpen(s)
    case _ => false
  }

  predicate ControlCause(s: State, auth: set<Address>, op: ControlOp, e: Error) {
    match e
    case HostTrap => !Signed(auth, if op.RequestPause? then op.requester else op.admin)
    case AlreadyInitialized => op.Initialize? && s.admin.Some?
    case Unauthorized => !op.Initialize? && !op.RequestPause? && s.admin != Some(op.admin)
    case AlreadySigned => op.RequestPause? && s.pause.Some? && op.requester in s.pause.value.signers
    case InvalidPauseState =>
      s.pause.Some? && (if s.pause.value.isPaused then op.CancelPauseRequest? else op.Unpause?)
    case NotInitialized => s.admin.None? || s.pause.None?
    case _ => false
  }

  lemma RegisterErrorHasCause(s: State, auth: set<Address>, op: QuestOp)
    requires op.Register? && RegisterCheck(s, auth, op).Fail?
    ensures QuestCause(s, auth, op, RegisterCheck(s, auth, op).error)
  {
  }

  lemma SubmitErrorHasCause(s: State, auth: set<Address>, q: Symbol, u: Address, proof: Hash)
    requires SubmitCheck(s, auth, q, u).Fail?
    ensures QuestCause(s, auth, Submit(q, u, proof), SubmitCheck(s, auth, q, u).error)
  {
  }

  lemma VerifierErrorHasCause(s: State, auth: set<Address>, op: QuestOp)
    requires (op.Approve? || op.Reject?) && VerifierCheck(s, auth, op.quest, op.submitter, op.verifier).Fail?
    ensures QuestCause(s, auth, op, VerifierCheck(s, auth, op.quest, op.submitter, op.verifier).error)
  {
  }

  lemma ApproveErrorHasCause(s: State, auth: set<Address>, q: Symbol, u: Address, v: Address)
    requires ApproveCheck(s, auth, q, u, v).Fail?
    ensures QuestCause(s, auth, Approve(q, u, v), ApproveCheck(s, auth, q, u, v).error)
  {
    if VerifierCheck(s, auth, q, u, v).Fail? { VerifierErrorHasCause(s, auth, Approve(q, u, v)); }
  }

  lemma StatusErrorHasCause(s: State, auth: set<Address>, op: QuestOp, blocked: set<QuestStatus>)
    requires (op.UpdateStatus? || op.Expire? || op.Cancel?) && blocked <= TERMINAL
    requires StatusCheck(s, auth, op.quest, op.caller, blocked).Fail?
    ensures QuestCause(s, auth, op, StatusCheck(s, auth, op.quest, op.caller, blocked).error)
  {
  }

  lemma QuestErrorHasCause(s: State, auth: set<Address>, op: QuestOp)
    requires QuestCheck(s, auth, op).Fail?
    ensures QuestCause(s, auth, op, QuestCheck(s, auth, op).error)
  {
    match op
    case Register(_, _, _, _, _, _, _) => RegisterErrorHasCause(s, auth, op);
    case Submit(q, u, proof) => SubmitErrorHasCause(s, auth, q, u, proof);
    case Approve(q, u, v) => ApproveErrorHasCause(s, auth, q, u, v);
    case Reject(_, _, _) => VerifierErrorHasCause(s, auth, op);
    case GrantBadge(_, _, _) =>
    case Expire(_, _) => StatusErrorHasCause(s, auth, op, {Expired, Completed});
    case _ => StatusErrorHasCause(s, auth, op, TERMINAL);
  }

  lemma DepositErrorHasCause(s: State, auth: set<Address>, q: Symbol, creator: Address, amount: i128)
    requires DepositCheck(s, auth, q, creator, amount).Fail?
    ensures EscrowCause(s, auth, Deposit(q, creator, amount), DepositCheck(s, auth, q, creator, amount).error)
  {
  }

  lemma WithdrawErrorHasCause(s: State, auth: set<Address>, op: EscrowOp)
    requires !op.Deposit? && WithdrawCheck(s, auth, op.quest, op.creator).Fail?
    ensures EscrowCause(s, auth, op, WithdrawCheck(s, auth, op.quest, op.creator).error)
  {
  }

  lemma WindowErrorHasCause(s: State, auth: set<Address>, q: Symbol, creator: Address)
    requires WindowCheck(s).Fail?
    ensures EscrowCause(s, auth, EmergencyWithdraw(q, creator), WindowCheck(s).error)
  {
  }

  lemma EscrowErrorHasCause(s: State, auth: set<Address>, op: EscrowOp)
    requires EscrowCheck(s, auth, op).Fail?
    ensures EscrowCause(s, auth, op, EscrowCheck(s, auth, op).error)
  {
    match op
    case Deposit(q, creator, amount) => DepositErrorHasCause(s, auth, q, creator, amount);
    case Withdraw(_, _) => WithdrawErrorHasCause(s, auth, op);
    case EmergencyWithdraw(q, creator) =>
      if WindowCheck(s).Fail? { WindowErrorHasCause(s, auth, q, creator); } else { WithdrawErrorHasCause(s, auth, op); }
  }

  lemma ControlErrorHasCause(s: State, auth: set<Address>, op: ControlOp)
    requires ControlCheck(s, auth, op).Fail?
    ensures ControlCause(s, auth, op, ControlCheck(s, auth, op).error)
  {
  }

  /** Whatever call is refused with an error, what the error says is the case; and nothing has changed. */
  lemma ErrorsTellTheTruth(s: State, tx: Tx)
    requires Check(s, tx).Fail?
    ensures Next(s, tx) == s
    ensures match tx.call
      case OnQuest(op) => QuestCause(s, tx.auth, op, Check(s, tx).error)
      case OnEscrow(op) => EscrowCause(s, tx.auth, op, Check(s, tx).error)
      case Control(op) => ControlCause(s, tx.auth, op, Check(s, tx).error)
      case Outside(_) => Check(s, tx).error == HostTrap
  {
    match tx.call
    case OnQuest(op) => QuestErrorHasCause(s, tx.auth, op);
    case OnEscrow(op) => EscrowErrorHasCause(s, tx.auth, op);
    case Control(op) => ControlErrorHasCause(s, tx.auth, op);
    case Outside(_) =>
  }
}
