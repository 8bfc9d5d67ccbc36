/** How quests, escrows, submissions and reputation develop over runs of the contract with a claim step. */
module ClaimLifecycle {
  import opened Prelude
  import opened Sums
  import opened ClaimTypes
  import opened ClaimSpec
  import opened ClaimInvariant
  import ClaimLedger

  // ----- what only moves forward -----

  /** Terms are fixed, claims only grow, and a terminal status is kept exactly. */
  ghost predicate QuestsEvolve(quests: map<Symbol, Quest>, quests': map<Symbol, Quest>) {
    forall q :: q in quests ==>
      && q in quests'
      && quests'[q] == quests[q].(status := quests'[q].status, totalClaims := quests'[q].totalClaims)
      && quests[q].totalClaims <= quests'[q].totalClaims
      && (Terminal(quests[q].status) ==> quests'[q].status == quests[q].status)
  }

  ghost predicate EscrowGrows(e: EscrowInfo, e': EscrowInfo) {
    e.deposited <= e'.deposited && e.paidOut <= e'.paidOut && e.refunded <= e'.refunded
  }

  /** Escrow records are never deleted and their totals only grow; those of terminal quests are frozen. */
  ghost predicate EscrowsEvolve(s: State, s': State) {
    && (forall q :: q in s.escrows ==> q in s'.escrows && EscrowGrows(s.escrows[q], s'.escrows[q]))
    && (forall q :: q in s.quests && Terminal(s.quests[q].status) ==>
          (q in s'.escrows <==> q in s.escrows) && (q in s.escrows ==> s'.escrows[q] == s.escrows[q]))
  }

  ghost predicate StatsEvolve(stats: map<Address, UserStats>, stats': map<Address, UserStats>) {
    forall u :: u in stats ==> u in stats' && stats[u].xp <= stats'[u].xp && stats[u].level <= stats'[u].level
  }

  ghost predicate Evolves(s: State, s': State) {
    QuestsEvolve(s.quests, s'.quests) && EscrowsEvolve(s, s') && StatsEvolve(s.stats, s'.stats)
  }

  lemma EvolvesTransitive(a: State, b: State, c: State)
    requires Evolves(a, b) && Evolves(b, c)
    ensures Evolves(a, c)
  {
  }

  lemma {:induction false} QuestsEvolveBy(quests: map<Symbol, Quest>, q: Symbol, quest: Quest)
    requires q in quests ==>
      && quest == quests[q].(status := quest.status, totalClaims := quest.totalClaims)
      && quests[q].totalClaims <= quest.totalClaims
      && (Terminal(quests[q].status) ==> quest.status == quests[q].status)
    ensures QuestsEvolve(quests, quests[q := quest])
  {
  }

  lemma {:induction false} EvolvesRegistrations(s: State, creator: Address, items: seq<QuestInput>)
    requires ItemsCheck(s, creator, items).Pass?
    ensures Evolves(s, RegisteredAll(s, creator, items))
    decreases |items|
  {
    if items == [] {
    } else {
      var s' := Registered(s, creator, items[0]);
      EvolvesRegistrations(s', creator, items[1..]);
      assert Evolves(s, s');
      EvolvesTransitive(s, s', RegisteredAll(s, creator, items));
    }
  }

  lemma {:induction false} ApprovalsKeepRest(s: State, v: Address, items: seq<ApprovalInput>)
    requires ApprovalsCheck(s, v, items).Pass?
    ensures ApprovedAll(s, v, items) == s.(subs := ApprovedAll(s, v, items).subs)
    decreases |items|
  {
    if items == [] {
    } else {
      ApprovalsKeepRest(ApprovedOne(s, items[0]), v, items[1..]);
    }
  }

  lemma EvolvesFrame(s: State, s': State)
    requires s'.quests == s.quests && s'.escrows == s.escrows && s'.stats == s.stats
    ensures Evolves(s, s')
  {
  }

  lemma EscrowsEvolveByClaim(s: State, s': State, q: Symbol)
    requires EscrowsOk(s.quests, s.escrows) && q in s.quests && 0 < s.quests[q].reward
    requires q in s.escrows ==> s.escrows[q].active
    requires s'.escrows ==
      if q in s.escrows then s.escrows[q := PaidFromEscrow(s.escrows[q], s.quests[q].reward)] else s.escrows
    ensures EscrowsEvolve(s, s')
  {
  }

  lemma StatsEvolveBy(s: State, s': State, u: Address)
    requires StatsOk(s.stats) && StatsHaveRoom(s, u) && s'.stats == s.stats[u := Awarded(StatsOf(s, u))]
    ensures StatsEvolve(s.stats, s'.stats)
  {
  }

  lemma EvolvesClaim(s: State, auth: set<Address>, q: Symbol, u: Address)
    requires Inv(s) && ClaimCheck(s, auth, q, u).Pass?
    ensures Evolves(s, ClaimEffect(s, auth, q, u))
  {
    var s' := ClaimEffect(s, auth, q, u);
    QuestsEvolveBy(s.quests, q, s'.quests[q]);
    EscrowsEvolveByClaim(s, s', q);
    StatsEvolveBy(s, s', u);
  }

  lemma EvolvesRegister(s: State, creator: Address, item: QuestInput)
    requires ItemCheck(s, creator, item).Pass?
    ensures Evolves(s, Registered(s, creator, item))
  {
  }

  lemma EvolvesRegisterDescribed(s: State, creator: Address, item: QuestInput, m: QuestMetadata)
    requires ItemCheck(s, creator, item).Pass?
    ensures Evolves(s, Described(Registered(s, creator, item), item.id, m))
  {
    EvolvesRegister(s, creator, item);
  }

  lemma EvolvesBadge(s: State, user: Address, badge: Badge)
    ensures Evolves(s, BadgeEffect(s, user, badge))
  {
    var stats := StatsOf(s, user);
    BadgeKeepsLevel(s.stats, user, stats, badge);
  }

  lemma {:induction false} BadgeKeepsLevel(stats: map<Address, UserStats>, user: Address, entry: UserStats,
      badge: Badge)
    requires user in stats ==> entry == stats[user]
    ensures StatsEvolve(stats, stats[user := entry.(badges := entry.badges + [badge])])
  {
  }

  lemma EvolvesStatus(s: State, q: Symbol, status: QuestStatus)
    requires q in s.quests && !Terminal(s.quests[q].status)
    ensures Evolves(s, WithStatus(s, q, status))
  {
    QuestsEvolveBy(s.quests, q, s.quests[q].(status := status));
  }

  lemma EvolvesSetUp(s: State, auth: set<Address>, op: QuestOp)
    requires Inv(s) && SetsUp(op) && QuestCheck(s, auth, op).Pass?
    ensures Evolves(s, QuestEffect(s, auth, op))
  {
    match op
    case Register(creator, item) => EvolvesRegister(s, creator, item);
    case RegisterDescribed(creator, item, m) => EvolvesRegisterDescribed(s, creator, item, m);
    case RegisterBatch(creator, items) => EvolvesRegistrations(s, creator, items);
    case Describe(q, _, m) => EvolvesFrame(s, Described(s, q, m));
  }

  lemma EvolvesAdminOp(s: State, auth: set<Address>, op: QuestOp)
    requires Administers(op) && QuestCheck(s, auth, op).Pass?
    ensures Evolves(s, QuestEffect(s, auth, op))
  {
    match op
    case PauseQuest(_, q) => EvolvesStatus(s, q, Paused);
    case ResumeQuest(_, q) => EvolvesStatus(s, q, Active);
    case GrantBadge(_, user, badge) => EvolvesBadge(s, user, badge);
  }

  lemma EvolvesWork(s: State, auth: set<Address>, op: QuestOp)
    requires Inv(s) && !SetsUp(op) && !Administers(op) && QuestCheck(s, auth, op).Pass?
    ensures Evolves(s, QuestEffect(s, auth, op))
  {
    match op
    case ApproveBatch(v, items) =>
      ApprovalsKeepRest(s, v, items);
      EvolvesFrame(s, ApprovedAll(s, v, items));
    case Claim(q, u) => EvolvesClaim(s, auth, q, u);
    case Submit(_, _, _) => EvolvesFrame(s, QuestEffect(s, auth, op));
    case Approve(_, _, _) =>
  }

  lemma EvolvesQuestStep(s: State, auth: set<Address>, op: QuestOp)
    requires Inv(s) && QuestCheck(s, auth, op).Pass?
    ensures Evolves(s, QuestEffect(s, auth, op))
  {
    if SetsUp(op) {
      EvolvesSetUp(s, auth, op);
    } else if Administers(op) {
      EvolvesAdminOp(s, auth, op);
    } else {
      EvolvesWork(s, auth, op);
    }
  }

  /** A terminal quest's escrow, if any, has nothing left, so nothing can be withdrawn from it. */
  lemma NothingToWithdraw(s: State, auth: set<Address>, op: EscrowOp)
    requires Inv(s) && op.Withdraw?
    ensures EscrowCheck(s, auth, op).Fail?
    ensures CreatorCheck(s, auth, op.quest, op.creator).Pass? && Terminal(s.quests[op.quest].status) ==>
      EscrowCheck(s, auth, op) == Fail(if op.quest in s.escrows then NoFundsToWithdraw else EscrowNotFound)
  {
    if op.quest in s.escrows {
      ClaimLedger.EscrowBounds(s.quests[op.quest], s.escrows[op.quest]);
    }
  }

  lemma EvolvesDeposit(s: State, auth: set<Address>, op: EscrowOp)
    requires Inv(s) && op.Deposit? && DepositCheck(s, auth, op).Pass?
    ensures Evolves(s, EscrowEffect(s, auth, op))
  {
  }

  lemma EvolvesEnd(s: State, auth: set<Address>, op: EscrowOp)
    requires Inv(s) && (op.Cancel? || op.Expire?) && EndCheck(s, auth, op).Pass?
    ensures Evolves(s, EscrowEffect(s, auth, op))
  {
    var s' := EscrowEffect(s, auth, op);
    QuestsEvolveBy(s.quests, op.quest, s'.quests[op.quest]);
    assert EscrowsEvolve(s, s');
  }

  lemma EvolvesEscrowStep(s: State, auth: set<Address>, op: EscrowOp)
    requires Inv(s) && EscrowCheck(s, auth, op).Pass?
    ensures Evolves(s, EscrowEffect(s, auth, op))
  {
    match op
    case Deposit(_, _, _, _) => EvolvesDeposit(s, auth, op);
    case Withdraw(_, _) => NothingToWithdraw(s, auth, op);
    case _ => EvolvesEnd(s, auth, op);
  }

  lemma EvolvesEffect(s: State, tx: Tx)
    requires Inv(s) && Check(s, tx).Pass?
    ensures Evolves(s, Effect(s, tx))
  {
    match tx.call
    case OnQuest(op) => EvolvesQuestStep(s, tx.auth, op);
    case OnEscrow(op) => EvolvesEscrowStep(s, tx.auth, op);
    case OnGuard(op) =>
      GuardKeeps(s, tx.auth, op);
      EvolvesFrame(s, GuardEffect(s, tx.auth, op));
    case Outside(event) =>
      OutsideKeeps(s, tx.auth, event);
      EvolvesFrame(s, OutsideEffect(s, tx.auth, event));
  }

  lemma EvolvesStep(s: State, tx: Tx)
    requires Inv(s)
    ensures Evolves(s, Next(s, tx))
  {
    if Check(s, tx).Pass? {
      EvolvesEffect(s, tx);
    } else {
      EvolvesFrame(s, s);
    }
  }

  lemma {:induction false} EvolvesRun(s: State, txs: seq<Tx>)
    requires Inv(s)
    ensures Evolves(s, Run(s, txs))
  {
    if txs == [] {
    } else {
      EvolvesRun(s, txs[..|txs| - 1]);
      InvRun(s, txs[..|txs| - 1]);
      EvolvesStep(Run(s, txs[..|txs| - 1]), txs[|txs| - 1]);
      EvolvesTransitive(s, Run(s, txs[..|txs| - 1]), Run(s, txs));
    }
  }

  // ----- settlement -----

  /** A terminal quest has no escrow, or one that is closed with everything paid out or refunded. */
  lemma {:induction false} TerminalIsSettled(txs: seq<Tx>, q: Symbol)
    requires q in Run(GENESIS, txs).quests && Terminal(Run(GENESIS, txs).quests[q].status)
    ensures var s := Run(GENESIS, txs);
      q in s.escrows ==>
        var e := s.escrows[q];
        !e.active && e.deposited == e.paidOut + e.refunded
        && e.depositor == s.quests[q].creator && e.token == s.quests[q].asset
  {
    InvGenesis();
    InvRun(GENESIS, txs);
    var s := Run(GENESIS, txs);
    if q in s.escrows {
      assert EscrowOk(s.quests[q], s.escrows[q]);
    }
  }

  /** Once terminal, a quest keeps its status and its escrow record, or the lack of one, in every later state. */
  lemma {:induction false} SettlementIsFinal(txs: seq<Tx>, later: seq<Tx>, q: Symbol)
    requires q in Run(GENESIS, txs).quests && Terminal(Run(GENESIS, txs).quests[q].status)
    ensures var s, s' := Run(GENESIS, txs), Run(Run(GENESIS, txs), later);
      && q in s'.quests && s'.quests[q].status == s.quests[q].status
      && (q in s'.escrows <==> q in s.escrows)
      && (q in s.escrows ==> s'.escrows[q] == s.escrows[q])
  {
    InvGenesis();
    InvRun(GENESIS, txs);
    EvolvesRun(Run(GENESIS, txs), later);
  }

  predicate Ends(s: State, tx: Tx, q: Symbol) {
    && tx.call.OnEscrow? && (tx.call.escrow.Cancel? || tx.call.escrow.Expire?) && tx.call.escrow.quest == q
    && EscrowCheck(s, tx.auth, tx.call.escrow).Pass?
  }

  /** How often a run ends a quest, and so refunds its creator. */
  ghost function Endings(s: State, txs: seq<Tx>, q: Symbol): nat {
    if txs == [] then 0 else
      var before := txs[..|txs| - 1];
      Endings(s, before, q) + if Ends(Run(s, before), txs[|txs| - 1], q) then 1 else 0
  }

  ghost predicate Ended(s: State, q: Symbol) {
    q in s.quests && Terminal(s.quests[q].status)
  }

  lemma {:induction false} RegistrationsEndNothing(s: State, creator: Address, items: seq<QuestInput>, q: Symbol)
    requires ItemsCheck(s, creator, items).Pass?
    ensures Ended(RegisteredAll(s, creator, items), q) <==> Ended(s, q)
    decreases |items|
  {
    if items == [] {
    } else {
      RegistrationsEndNothing(Registered(s, creator, items[0]), creator, items[1..], q);
    }
  }

  lemma SetUpEndsNothing(s: State, auth: set<Address>, op: QuestOp, q: Symbol)
    requires SetsUp(op) && QuestCheck(s, auth, op).Pass?
    ensures Ended(QuestEffect(s, auth, op), q) <==> Ended(s, q)
  {
    if op.RegisterBatch? { RegistrationsEndNothing(s, op.creator, op.items, q); }
  }

  lemma QuestOpsEndNothing(s: State, auth: set<Address>, op: QuestOp, q: Symbol)
    requires QuestCheck(s, auth, op).Pass?
    ensures Ended(QuestEffect(s, auth, op), q) <==> Ended(s, q)
  {
    if SetsUp(op) {
      SetUpEndsNothing(s, auth, op, q);
    } else if op.ApproveBatch? {
      ApprovalsKeepRest(s, op.verifier, op.approvals);
    }
  }

  lemma EscrowOpsEnd(s: State, auth: set<Address>, op: EscrowOp, q: Symbol)
    requires EscrowCheck(s, auth, op).Pass?
    ensures Ended(EscrowEffect(s, auth, op), q) <==> Ended(s, q) || Ends(s, Tx(auth, OnEscrow(op)), q)
    ensures Ends(s, Tx(auth, OnEscrow(op)), q) ==> !Ended(s, q)
  {
  }

  lemma EndsStep(s: State, tx: Tx, q: Symbol)
    ensures Ended(Next(s, tx), q) <==> Ended(s, q) || Ends(s, tx, q)
    ensures Ends(s, tx, q) ==> !Ended(s, q)
  {
    if Check(s, tx).Pass? {
      match tx.call
      case OnQuest(op) => QuestOpsEndNothing(s, tx.auth, op, q);
      case OnEscrow(op) => EscrowOpsEnd(s, tx.auth, op, q);
      case OnGuard(op) => GuardKeeps(s, tx.auth, op);
      case Outside(event) => OutsideKeeps(s, tx.auth, event);
    }
  }

  /** A quest is ended, and its creator refunded, at most once in any run. */
  lemma {:induction false} EndsOnce(txs: seq<Tx>, q: Symbol)
    ensures Endings(GENESIS, txs, q) == if Ended(Run(GENESIS, txs), q) then 1 else 0
  {
    if txs == [] {
    } else {
      EndsOnce(txs[..|txs| - 1], q);
      EndsStep(Run(GENESIS, txs[..|txs| - 1]), txs[|txs| - 1], q);
    }
  }

  // ----- how often a user is paid -----

  ghost predicate IsPaid(s: State, k: SubmissionKey) {
    k in s.subs && s.subs[k].status.Paid?
  }

  predicate Claims(s: State, tx: Tx, k: SubmissionKey) {
    && tx.call.OnQuest? && tx.call.quest.Claim? && (tx.call.quest.quest, tx.call.quest.submitter) == k
    && QuestCheck(s, tx.auth, tx.call.quest).Pass?
  }

  /** A new proof for a submission that has already been paid. */
  ghost predicate Resubmits(s: State, tx: Tx, k: SubmissionKey) {
    && tx.call.OnQuest? && tx.call.quest.Submit? && (tx.call.quest.quest, tx.call.quest.submitter) == k
    && QuestCheck(s, tx.auth, tx.call.quest).Pass? && IsPaid(s, k)
  }

  ghost function ClaimCount(s: State, txs: seq<Tx>, k: SubmissionKey): nat {
    if txs == [] then 0 else
      var before := txs[..|txs| - 1];
      ClaimCount(s, before, k) + if Claims(Run(s, before), txs[|txs| - 1], k) then 1 else 0
  }

  ghost function ResubmissionCount(s: State, txs: seq<Tx>, k: SubmissionKey): nat {
    if txs == [] then 0 else
      var before := txs[..|txs| - 1];
      ResubmissionCount(s, before, k) + if Resubmits(Run(s, before), txs[|txs| - 1], k) then 1 else 0
  }

  lemma {:induction false} ApprovalsPayNothing(s: State, v: Address, items: seq<ApprovalInput>, k: SubmissionKey)
    requires ApprovalsCheck(s, v, items).Pass?
    ensures IsPaid(ApprovedAll(s, v, items), k) <==> IsPaid(s, k)
    decreases |items|
  {
    if items == [] {
    } else {
      ApprovalsPayNothing(ApprovedOne(s, items[0]), v, items[1..], k);
    }
  }

  lemma {:induction false} RegistrationsKeepSubs(s: State, creator: Address, items: seq<QuestInput>)
    ensures RegisteredAll(s, creator, items).subs == s.subs
    decreases |items|
  {
    if items == [] {
    } else {
      RegistrationsKeepSubs(Registered(s, creator, items[0]), creator, items[1..]);
    }
  }

  lemma SetUpKeepsSubs(s: State, auth: set<Address>, op: QuestOp)
    requires SetsUp(op) && QuestCheck(s, auth, op).Pass?
    ensures QuestEffect(s, auth, op).subs == s.subs
  {
    if op.RegisterBatch? { RegistrationsKeepSubs(s, op.creator, op.items); }
  }

  lemma PaidQuestStep(s: State, auth: set<Address>, op: QuestOp, k: SubmissionKey)
    requires QuestCheck(s, auth, op).Pass?
    ensures IsPaid(QuestEffect(s, auth, op), k) <==>
      (IsPaid(s, k) && !Resubmits(s, Tx(auth, OnQuest(op)), k)) || Claims(s, Tx(auth, OnQuest(op)), k)
    ensures Claims(s, Tx(auth, OnQuest(op)), k) ==> !IsPaid(s, k)
  {
    if SetsUp(op) {
      SetUpKeepsSubs(s, auth, op);
    } else if op.ApproveBatch? {
      ApprovalsPayNothing(s, op.verifier, op.approvals, k);
    }
  }

  /** A paid submission stops being paid exactly when its submitter sends a new proof that is accepted. */
  lemma PaidStep(s: State, tx: Tx, k: SubmissionKey)
    ensures IsPaid(Next(s, tx), k) <==> (IsPaid(s, k) && !Resubmits(s, tx, k)) || Claims(s, tx, k)
    ensures Claims(s, tx, k) ==> !IsPaid(s, k)
  {
    if tx.call.OnQuest? {
      if QuestCheck(s, tx.auth, tx.call.quest).Pass? { PaidQuestStep(s, tx.auth, tx.call.quest, k); }
    } else {
      OthersKeepSubs(s, tx);
    }
  }

  /**
   Over any run a user claims a quest's reward once for each time a paid submission was
   replaced by a new proof, and once more when the submission ends up paid. So payment
   is once per user exactly in the runs without such a replacement followed by a claim.
   */
  lemma {:induction false} ClaimsCounted(txs: seq<Tx>, k: SubmissionKey)
    ensures ClaimCount(GENESIS, txs, k) ==
      ResubmissionCount(GENESIS, txs, k) + if IsPaid(Run(GENESIS, txs), k) then 1 else 0
  {
    if txs == [] {
    } else {
      ClaimsCounted(txs[..|txs| - 1], k);
      PaidStep(Run(GENESIS, txs[..|txs| - 1]), txs[|txs| - 1], k);
    }
  }

  // ----- reputation -----

  /** One level for each threshold reached: after 3, 6, 10 and 15 claims. */
  function LevelAfter(claims: nat): nat {
    1 + (if claims >= 3 then 1 else 0) + (if claims >= 6 then 1 else 0)
      + (if claims >= 10 then 1 else 0) + (if claims >= 15 then 1 else 0)
  }

  /** Claims counted over quests equal completions counted over users; experience and level follow from them. */
  lemma {:induction false} ReputationMatchesClaims(txs: seq<Tx>)
    ensures var s := Run(GENESIS, txs);
      && Sum(ClaimsByQuest(s.quests)) == Sum(CompletedByUser(s.stats))
      && forall u :: u in s.stats ==>
        && s.stats[u].xp == 100 * s.stats[u].questsCompleted
        && s.stats[u].level == LevelAfter(s.stats[u].questsCompleted)
  {
    InvGenesis();
    InvRun(GENESIS, txs);
  }
}
