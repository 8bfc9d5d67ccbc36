/** What every transaction of the contract with a claim step keeps. */
module ClaimInvariant {
  import opened Prelude
  import opened Sums
  import opened ClaimTypes
  import opened ClaimSpec

  // ----- the invariant, part by part -----

  ghost predicate QuestOk(q: Symbol, quest: Quest) {
    && quest.id == q && quest.creator.Account? && quest.creator != quest.verifier
    && 0 < quest.reward <= MAX_REWARD_AMOUNT
    && quest.totalClaims <= MAX_QUEST_CLAIMS
    && !quest.status.Completed?
  }

  ghost predicate QuestsOk(quests: map<Symbol, Quest>) {
    forall q :: q in quests ==> QuestOk(q, quests[q])
  }

  /** The index lists every stored quest once. */
  ghost predicate IndexOk(quests: map<Symbol, Quest>, ids: seq<Symbol>) {
    && (forall i, j :: 0 <= i < j < |ids| ==> ids[i] != ids[j])
    && (forall q :: q in ids <==> q in quests)
  }

  ghost predicate SubsOk(quests: map<Symbol, Quest>, subs: map<SubmissionKey, Submission>) {
    forall k :: k in subs ==>
      k.0 in quests && k.1.Account? && subs[k].quest == k.0 && subs[k].submitter == k.1
  }

  /**
   An escrow belongs to its quest's creator and asset, never pays or refunds more than
   was deposited, is active exactly while the quest can still run, and once closed is
   settled in full.
   */
  ghost predicate EscrowOk(quest: Quest, e: EscrowInfo) {
    && e.depositor == quest.creator && e.token == quest.asset
    && 0 <= e.paidOut && 0 <= e.refunded && 0 <= Available(e)
    && e.deposited <= MAX_REWARD_AMOUNT * e.depositCount
    && e.paidOut <= quest.reward * quest.totalClaims
    && (e.active <==> !Terminal(quest.status))
    && (if e.active then e.refunded == 0 else Available(e) == 0)
  }

  ghost predicate EscrowsOk(quests: map<Symbol, Quest>, escrows: map<Symbol, EscrowInfo>) {
    forall q :: q in escrows ==> q in quests && EscrowOk(quests[q], escrows[q])
  }

  ghost predicate StatsOk(stats: map<Address, UserStats>) {
    forall u :: u in stats ==>
      && stats[u].xp == XP_PER_CLAIM * stats[u].questsCompleted
      && stats[u].level == LevelOf(stats[u].xp)
  }

  ghost function ClaimsByQuest(quests: map<Symbol, Quest>): map<Symbol, int> {
    map q | q in quests :: quests[q].totalClaims
  }

  ghost function CompletedByUser(stats: map<Address, UserStats>): map<Address, int> {
    map u | u in stats :: stats[u].questsCompleted
  }

  ghost predicate CountsAgree(quests: map<Symbol, Quest>, stats: map<Address, UserStats>) {
    Sum(ClaimsByQuest(quests)) == Sum(CompletedByUser(stats))
  }

  /** Before initialisation there is no admin, hence no pause. */
  ghost predicate SetupOk(s: State) {
    s.initialized || (s.admins == {} && !s.guard.paused)
  }

  ghost predicate QuestPart(s: State) {
    && QuestsOk(s.quests) && IndexOk(s.quests, s.questIds)
    && SubsOk(s.quests, s.subs) && EscrowsOk(s.quests, s.escrows)
  }

  ghost predicate Inv(s: State) {
    QuestPart(s) && StatsOk(s.stats) && CountsAgree(s.quests, s.stats) && SetupOk(s)
  }

  // ----- registration -----

  lemma RegisteredQuestPart(s: State, creator: Address, item: QuestInput)
    requires QuestPart(s) && creator.Account? && ItemCheck(s, creator, item).Pass?
    ensures QuestPart(Registered(s, creator, item))
  {
  }

  lemma {:induction false} RegisteredCounts(quests: map<Symbol, Quest>, stats: map<Address, UserStats>, q: Symbol,
      quest: Quest)
    requires CountsAgree(quests, stats) && q !in quests && quest.totalClaims == 0
    ensures CountsAgree(quests[q := quest], stats)
  {
    SumChange(ClaimsByQuest(quests), ClaimsByQuest(quests[q := quest]), q);
  }

  lemma RegisteredOk(s: State, creator: Address, item: QuestInput)
    requires Inv(s) && creator.Account? && ItemCheck(s, creator, item).Pass?
    ensures Inv(Registered(s, creator, item))
  {
    RegisteredQuestPart(s, creator, item);
    RegisteredCounts(s.quests, s.stats, item.id, Registered(s, creator, item).quests[item.id]);
  }

  lemma {:induction false} RegisteredAllOk(s: State, creator: Address, items: seq<QuestInput>)
    requires Inv(s) && creator.Account? && ItemsCheck(s, creator, items).Pass?
    ensures Inv(RegisteredAll(s, creator, items))
    decreases |items|
  {
    if items == [] {
    } else {
      RegisteredOk(s, creator, items[0]);
      RegisteredAllOk(Registered(s, creator, items[0]), creator, items[1..]);
    }
  }

  // ----- status changes, submissions, badges -----

  /** Quest `q` moves to another status and keeps its terms and claims. */
  lemma StatusQuestPart(s: State, q: Symbol, status: QuestStatus)
    requires QuestPart(s) && q in s.quests && !status.Completed?
    ensures var quests := WithStatus(s, q, status).quests;
      QuestsOk(quests) && IndexOk(quests, s.questIds) && SubsOk(quests, s.subs)
  {
  }

  lemma StatusCounts(s: State, q: Symbol, status: QuestStatus)
    requires CountsAgree(s.quests, s.stats) && q in s.quests
    ensures CountsAgree(WithStatus(s, q, status).quests, s.stats)
  {
    assert ClaimsByQuest(WithStatus(s, q, status).quests) == ClaimsByQuest(s.quests);
  }

  lemma StatusEscrows(s: State, q: Symbol, status: QuestStatus)
    requires EscrowsOk(s.quests, s.escrows) && q in s.quests
    requires Terminal(s.quests[q].status) <==> Terminal(status)
    ensures EscrowsOk(WithStatus(s, q, status).quests, s.escrows)
  {
  }

  lemma StatusOk(s: State, q: Symbol, status: QuestStatus)
    requires Inv(s) && q in s.quests && QuestTransition(s.quests[q].status, status)
    requires status.Active? || status.Paused?
    ensures Inv(WithStatus(s, q, status))
  {
    StatusQuestPart(s, q, status);
    StatusEscrows(s, q, status);
    StatusCounts(s, q, status);
  }

  lemma SubsReplaced(s: State, s': State, k: SubmissionKey, sub: Submission)
    requires Inv(s) && k.0 in s.quests && k.1.Account? && sub.quest == k.0 && sub.submitter == k.1
    requires s' == s.(subs := s.subs[k := sub])
    ensures Inv(s')
  {
  }

  lemma {:induction false} ApprovedAllOk(s: State, v: Address, items: seq<ApprovalInput>)
    requires Inv(s) && ApprovalsCheck(s, v, items).Pass?
    ensures Inv(ApprovedAll(s, v, items))
    decreases |items|
  {
    if items == [] {
    } else {
      var k := KeyOf(items[0]);
      SubsReplaced(s, ApprovedOne(s, items[0]), k, s.subs[k].(status := Approved));
      ApprovedAllOk(ApprovedOne(s, items[0]), v, items[1..]);
    }
  }

  lemma BadgeOk(s: State, user: Address, badge: Badge)
    requires Inv(s)
    ensures Inv(BadgeEffect(s, user, badge))
  {
    var s' := BadgeEffect(s, user, badge);
    if s' != s {
      SumChange(CompletedByUser(s.stats), CompletedByUser(s'.stats), user);
    }
  }

  // ----- claims -----

  lemma ClaimedEscrow(quest: Quest, e: EscrowInfo)
    requires EscrowOk(quest, e) && e.active && 0 < quest.reward <= Available(e) && quest.totalClaims < U32_MAX
    ensures EscrowOk(quest.(totalClaims := quest.totalClaims + 1), PaidFromEscrow(e, quest.reward))
  {
    assert quest.reward * (quest.totalClaims + 1) == quest.reward * quest.totalClaims + quest.reward;
  }

  /** One more claim on a quest, paid from its escrow where it has one. */
  lemma {:induction false} ClaimedQuests(quests: map<Symbol, Quest>, escrows: map<Symbol, EscrowInfo>, q: Symbol,
                      escrows': map<Symbol, EscrowInfo>)
    requires QuestsOk(quests) && EscrowsOk(quests, escrows) && q in quests
    requires quests[q].totalClaims < MAX_QUEST_CLAIMS
    requires q in escrows ==> escrows[q].active && quests[q].reward <= Available(escrows[q])
    requires escrows' == if q in escrows then escrows[q := PaidFromEscrow(escrows[q], quests[q].reward)] else escrows
    ensures var quests' := quests[q := quests[q].(totalClaims := quests[q].totalClaims + 1)];
      QuestsOk(quests') && EscrowsOk(quests', escrows')
  {
    if q in escrows {
      ClaimedEscrow(quests[q], escrows[q]);
    }
  }

  lemma {:induction false} ClaimedStats(stats: map<Address, UserStats>, u: Address, entry: UserStats)
    requires StatsOk(stats) && entry.xp + XP_PER_CLAIM <= U64_MAX && entry.questsCompleted < U32_MAX
    requires entry == if u in stats then stats[u] else UserStats(0, 1, 0, [])
    ensures StatsOk(stats[u := Awarded(entry)])
  {
  }

  lemma ClaimedIndex(s: State, q: Symbol, quest: Quest, k: SubmissionKey)
    requires IndexOk(s.quests, s.questIds) && SubsOk(s.quests, s.subs) && q in s.quests && k in s.subs
    ensures IndexOk(s.quests[q := quest], s.questIds)
    ensures SubsOk(s.quests[q := quest], s.subs[k := s.subs[k].(status := Paid)])
  {
  }

  lemma ClaimCounts(s: State, s': State, q: Symbol, u: Address)
    requires CountsAgree(s.quests, s.stats) && q in s.quests && StatsHaveRoom(s, u)
    requires s.quests[q].totalClaims < U32_MAX
    requires s'.quests == s.quests[q := s.quests[q].(totalClaims := s.quests[q].totalClaims + 1)]
    requires s'.stats == s.stats[u := Awarded(StatsOf(s, u))]
    ensures CountsAgree(s'.quests, s'.stats)
  {
    SumChange(ClaimsByQuest(s.quests), ClaimsByQuest(s'.quests), q);
    SumChange(CompletedByUser(s.stats), CompletedByUser(s'.stats), u);
  }

  lemma ClaimedQuestPart(s: State, s': State, q: Symbol, u: Address)
    requires Inv(s) && q in s.quests && (q, u) in s.subs && StatsHaveRoom(s, u)
    requires s.quests[q].totalClaims < MAX_QUEST_CLAIMS
    requires q in s.escrows ==> s.escrows[q].active && s.quests[q].reward <= Available(s.escrows[q])
    requires s'.questIds == s.questIds
    requires s'.quests == s.quests[q := s.quests[q].(totalClaims := s.quests[q].totalClaims + 1)]
    requires s'.subs == s.subs[(q, u) := s.subs[(q, u)].(status := Paid)]
    requires s'.escrows ==
      if q in s.escrows then s.escrows[q := PaidFromEscrow(s.escrows[q], s.quests[q].reward)] else s.escrows
    ensures QuestPart(s')
  {
    ClaimedQuests(s.quests, s.escrows, q, s'.escrows);
    ClaimedIndex(s, q, s'.quests[q], (q, u));
  }

  lemma ClaimedStatsPart(s: State, s': State, q: Symbol, u: Address)
    requires StatsOk(s.stats) && CountsAgree(s.quests, s.stats) && q in s.quests && StatsHaveRoom(s, u)
    requires s.quests[q].totalClaims < MAX_QUEST_CLAIMS
    requires s'.quests == s.quests[q := s.quests[q].(totalClaims := s.quests[q].totalClaims + 1)]
    requires s'.stats == s.stats[u := Awarded(StatsOf(s, u))]
    ensures StatsOk(s'.stats) && CountsAgree(s'.quests, s'.stats)
  {
    ClaimedStats(s.stats, u, StatsOf(s, u));
    ClaimCounts(s, s', q, u);
  }

  /** The fields a claim changes, and what its checks leave known about them. */
  ghost predicate Claimed(s: State, s': State, q: Symbol, u: Address) {
    && q in s.quests && (q, u) in s.subs && StatsHaveRoom(s, u) && s.quests[q].totalClaims < MAX_QUEST_CLAIMS
    && (q in s.escrows ==> s.escrows[q].active && s.quests[q].reward <= Available(s.escrows[q]))
    && s'.quests == s.quests[q := s.quests[q].(totalClaims := s.quests[q].totalClaims + 1)]
    && s'.subs == s.subs[(q, u) := s.subs[(q, u)].(status := Paid)]
    && s'.stats == s.stats[u := Awarded(StatsOf(s, u))]
    && s'.escrows == (if q in s.escrows then s.escrows[q := PaidFromEscrow(s.escrows[q], s.quests[q].reward)]
                      else s.escrows)
    && s'.questIds == s.questIds && s'.initialized == s.initialized && s'.admins == s.admins && s'.guard == s.guard
  }

  lemma ClaimClaims(s: State, auth: set<Address>, q: Symbol, u: Address)
    requires ClaimCheck(s, auth, q, u).Pass?
    ensures Claimed(s, ClaimEffect(s, auth, q, u), q, u)
  {
  }

  lemma ClaimedOk(s: State, s': State, q: Symbol, u: Address)
    requires Inv(s) && Claimed(s, s', q, u)
    ensures Inv(s')
  {
    ClaimedQuestPart(s, s', q, u);
    ClaimedStatsPart(s, s', q, u);
  }

  lemma ClaimOk(s: State, auth: set<Address>, q: Symbol, u: Address)
    requires Inv(s) && ClaimCheck(s, auth, q, u).Pass?
    ensures Inv(ClaimEffect(s, auth, q, u))
  {
    ClaimClaims(s, auth, q, u);
    ClaimedOk(s, ClaimEffect(s, auth, q, u), q, u);
  }

  lemma DescribedOk(s: State, q: Symbol, m: QuestMetadata)
    requires Inv(s)
    ensures Inv(Described(s, q, m))
  {
  }

  lemma SetUpOk(s: State, auth: set<Address>, op: QuestOp)
    requires Inv(s) && SetsUp(op) && QuestCheck(s, auth, op).Pass?
    ensures Inv(QuestEffect(s, auth, op))
  {
    match op
    case Register(creator, item) => RegisteredOk(s, creator, item);
    case RegisterBatch(creator, items) => RegisteredAllOk(s, creator, items);
    case RegisterDescribed(creator, item, m) =>
      RegisteredOk(s, creator, item);
      DescribedOk(Registered(s, creator, item), item.id, m);
    case Describe(q, _, m) => DescribedOk(s, q, m);
  }

  lemma SubmitOk(s: State, auth: set<Address>, q: Symbol, u: Address, proof: Hash)
    requires Inv(s) && SubmitCheck(s, auth, q, u).Pass?
    ensures Inv(s.(subs := s.subs[(q, u) := Submission(q, u, proof, Pending, s.now)]))
  {
    var sub := Submission(q, u, proof, Pending, s.now);
    SubsReplaced(s, s.(subs := s.subs[(q, u) := sub]), (q, u), sub);
  }

  lemma InvQuestStep(s: State, auth: set<Address>, op: QuestOp)
    requires Inv(s) && QuestCheck(s, auth, op).Pass?
    ensures Inv(QuestEffect(s, auth, op))
  {
    if SetsUp(op) {
      SetUpOk(s, auth, op);
    } else if Administers(op) {
      AdminOpOk(s, auth, op);
    } else {
      WorkOk(s, auth, op);
    }
  }

  lemma AdminOpOk(s: State, auth: set<Address>, op: QuestOp)
    requires Inv(s) && Administers(op) && QuestCheck(s, auth, op).Pass?
    ensures Inv(QuestEffect(s, auth, op))
  {
    match op
    case PauseQuest(_, q) => StatusOk(s, q, Paused);
    case ResumeQuest(_, q) => StatusOk(s, q, Active);
    case GrantBadge(_, user, badge) => BadgeOk(s, user, badge);
  }

  lemma WorkOk(s: State, auth: set<Address>, op: QuestOp)
    requires Inv(s) && !SetsUp(op) && !Administers(op) && QuestCheck(s, auth, op).Pass?
    ensures Inv(QuestEffect(s, auth, op))
  {
    match op
    case Submit(q, u, proof) => SubmitOk(s, auth, q, u, proof);
    case Approve(_, _, _) =>
    case ApproveBatch(v, items) => ApprovedAllOk(s, v, items);
    case Claim(q, u) => ClaimOk(s, auth, q, u);
  }

  // ----- escrow -----

  lemma ToppedUpOk(quest: Quest, e: EscrowInfo, amount: int)
    requires EscrowOk(quest, e) && e.active && 0 < amount <= MAX_REWARD_AMOUNT && e.depositCount < U32_MAX
    ensures EscrowOk(quest, ToppedUp(e, amount))
  {
  }

  /** The escrow a deposit finds, or the empty one it opens. */
  lemma EscrowForOk(s: State, op: EscrowOp)
    requires QuestsOk(s.quests) && EscrowsOk(s.quests, s.escrows) && op.Deposit? && op.quest in s.quests
    requires op.creator == s.quests[op.quest].creator && op.token == s.quests[op.quest].asset
    requires !Terminal(s.quests[op.quest].status)
    ensures EscrowOk(s.quests[op.quest], EscrowFor(s, op)) && EscrowFor(s, op).active
  {
    var quest := s.quests[op.quest];
    assert QuestOk(op.quest, quest);
    assert 0 <= quest.reward * quest.totalClaims;
  }

  lemma DepositEscrows(s: State, op: EscrowOp)
    requires QuestsOk(s.quests) && EscrowsOk(s.quests, s.escrows) && op.Deposit? && op.quest in s.quests
    requires op.creator == s.quests[op.quest].creator && op.token == s.quests[op.quest].asset
    requires !Terminal(s.quests[op.quest].status) && 0 < op.amount <= MAX_REWARD_AMOUNT
    requires EscrowFor(s, op).depositCount < U32_MAX
    ensures EscrowsOk(s.quests, s.escrows[op.quest := ToppedUp(EscrowFor(s, op), op.amount)])
  {
    EscrowForOk(s, op);
    ToppedUpOk(s.quests[op.quest], EscrowFor(s, op), op.amount);
  }

  lemma DepositOk(s: State, auth: set<Address>, op: EscrowOp)
    requires Inv(s) && op.Deposit? && DepositCheck(s, auth, op).Pass?
    ensures Inv(EscrowEffect(s, auth, op))
  {
    DepositEscrows(s, op);
  }

  /** A refund that ends the quest, or finds it ended, settles its escrow. */
  lemma EndEscrows(s: State, s': State, q: Symbol, status: QuestStatus)
    requires EscrowsOk(s.quests, s.escrows) && q in s.quests && Terminal(status)
    requires s'.quests == WithStatus(s, q, status).quests
    requires s'.escrows == if q in s.escrows then s.escrows[q := Closed(s.escrows[q])] else s.escrows
    ensures EscrowsOk(s'.quests, s'.escrows)
  {
    if q in s.escrows {
      assert EscrowOk(s'.quests[q], Closed(s.escrows[q]));
    }
  }

  /** Quest `q` ends with its escrow closed, and nothing else the invariant speaks of differs. */
  ghost predicate EndedBy(s: State, s': State, q: Symbol, status: QuestStatus) {
    && q in s.quests && Terminal(status) && !status.Completed?
    && s'.quests == s.quests[q := s.quests[q].(status := status)]
    && s'.escrows == (if q in s.escrows then s.escrows[q := Closed(s.escrows[q])] else s.escrows)
    && s'.questIds == s.questIds && s'.subs == s.subs && s'.stats == s.stats
    && s'.initialized == s.initialized && s'.admins == s.admins && s'.guard == s.guard
  }

  lemma EndEnds(s: State, auth: set<Address>, op: EscrowOp)
    requires QuestsOk(s.quests) && !op.Deposit? && EscrowCheck(s, auth, op).Pass?
    ensures EndedBy(s, EscrowEffect(s, auth, op), op.quest, StatusAfter(s.quests[op.quest].status, op))
  {
    assert QuestOk(op.quest, s.quests[op.quest]);
  }

  lemma EndedOk(s: State, s': State, q: Symbol, status: QuestStatus)
    requires Inv(s) && EndedBy(s, s', q, status)
    ensures Inv(s')
  {
    StatusQuestPart(s, q, status);
    StatusCounts(s, q, status);
    EndEscrows(s, s', q, status);
  }

  lemma EndOk(s: State, auth: set<Address>, op: EscrowOp)
    requires Inv(s) && !op.Deposit? && EscrowCheck(s, auth, op).Pass?
    ensures Inv(EscrowEffect(s, auth, op))
  {
    EndEnds(s, auth, op);
    EndedOk(s, EscrowEffect(s, auth, op), op.quest, StatusAfter(s.quests[op.quest].status, op));
  }

  lemma InvEscrowStep(s: State, auth: set<Address>, op: EscrowOp)
    requires Inv(s) && EscrowCheck(s, auth, op).Pass?
    ensures Inv(EscrowEffect(s, auth, op))
  {
    if op.Deposit? { DepositOk(s, auth, op); } else { EndOk(s, auth, op); }
  }

  // ----- every transaction -----

  /** Governance touches nothing that belongs to quests or users. */
  lemma GuardKeeps(s: State, auth: set<Address>, op: GuardOp)
    requires GuardCheck(s, auth, op).Pass?
    ensures var s' := GuardEffect(s, auth, op);
      && s'.quests == s.quests && s'.questIds == s.questIds && s'.subs == s.subs
      && s'.stats == s.stats && s'.escrows == s.escrows
  {
  }

  lemma OutsideKeeps(s: State, auth: set<Address>, event: OutsideEvent)
    requires OutsideCheck(s, auth, event).Pass?
    ensures OutsideEffect(s, auth, event) == s.(now := OutsideEffect(s, auth, event).now,
                                                 tokens := OutsideEffect(s, auth, event).tokens)
  {
  }

  lemma EscrowOpsKeep(s: State, auth: set<Address>, op: EscrowOp)
    requires EscrowCheck(s, auth, op).Pass?
    ensures EscrowEffect(s, auth, op) == s.(tokens := EscrowEffect(s, auth, op).tokens,
                                             escrows := EscrowEffect(s, auth, op).escrows,
                                             quests := EscrowEffect(s, auth, op).quests)
  {
  }

  /** Submissions change by calls on quests only. */
  lemma OthersKeepSubs(s: State, tx: Tx)
    requires !tx.call.OnQuest?
    ensures Next(s, tx).subs == s.subs
  {
    if Check(s, tx).Pass? {
      match tx.call
      case OnEscrow(op) => EscrowOpsKeep(s, tx.auth, op);
      case OnGuard(op) => GuardKeeps(s, tx.auth, op);
      case Outside(event) => OutsideKeeps(s, tx.auth, event);
    }
  }

  lemma InvGuardStep(s: State, auth: set<Address>, op: GuardOp)
    requires Inv(s) && GuardCheck(s, auth, op).Pass?
    ensures Inv(GuardEffect(s, auth, op))
  {
  }

  lemma InvOutsideStep(s: State, auth: set<Address>, event: OutsideEvent)
    requires Inv(s) && OutsideCheck(s, auth, event).Pass?
    ensures Inv(OutsideEffect(s, auth, event))
  {
  }

  lemma InvEffect(s: State, tx: Tx)
    requires Inv(s) && Check(s, tx).Pass?
    ensures Inv(Effect(s, tx))
  {
    match tx.call
    case OnQuest(op) => InvQuestStep(s, tx.auth, op);
    case OnEscrow(op) => InvEscrowStep(s, tx.auth, op);
    case OnGuard(op) => InvGuardStep(s, tx.auth, op);
    case Outside(event) => InvOutsideStep(s, tx.auth, event);
  }

  lemma InvStep(s: State, tx: Tx)
    requires Inv(s)
    ensures Inv(Next(s, tx))
  {
    if Check(s, tx).Pass? {
      InvEffect(s, tx);
    }
  }

  lemma InvGenesis()
    ensures Inv(GENESIS)
  {
  }

  lemma {:induction false} InvRun(s: State, txs: seq<Tx>)
    requires Inv(s)
    ensures Inv(Run(s, txs))
  {
    if txs == [] {
    } else {
      InvRun(s, txs[..|txs| - 1]);
      InvStep(Run(s, txs[..|txs| - 1]), txs[|txs| - 1]);
    }
  }
}
