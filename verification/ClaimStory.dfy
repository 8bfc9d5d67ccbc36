/**
 What the contract with a claim step stores, told by the calls a run accepted: every stored
 record is what those calls, counted and put in order, say it is.
 */
module ClaimStory {
  import opened Prelude
  import opened Tokens
  import opened ClaimTypes
  import opened ClaimSpec
  import opened ClaimInvariant
  import opened ClaimBatch
  import ClaimLifecycle
  import ClaimPause

  /** The last call of a run, if it is accepted. */
  ghost function LastAccepted(txs: seq<Tx>): Option<Call>
    requires txs != []
  {
    var s, tx := Run(GENESIS, txs[..|txs| - 1]), txs[|txs| - 1];
    if Check(s, tx).Pass? then Some(tx.call) else None
  }

  // ----- quests -----

  /** The item of a batch that registers a quest. */
  function ItemFor(items: seq<QuestInput>, q: Symbol): (r: Option<QuestInput>)
    ensures r.Some? ==> r.value in items && r.value.id == q
    ensures r.None? ==> forall item :: item in items ==> item.id != q
  {
    if items == [] then None
    else if items[0].id == q then Some(items[0])
    else ItemFor(items[1..], q)
  }

  datatype Terms = Terms(creator: Address, item: QuestInput)

  /** The terms on which a call registers a quest. */
  function TermsBy(call: Call, q: Symbol): Option<Terms> {
    if !call.OnQuest? then None else
      match call.quest
      case Register(creator, item) => if item.id == q then Some(Terms(creator, item)) else None
      case RegisterDescribed(creator, item, _) => if item.id == q then Some(Terms(creator, item)) else None
      case RegisterBatch(creator, items) =>
        if ItemFor(items, q).Some? then Some(Terms(creator, ItemFor(items, q).value)) else None
      case _ => None
  }

  /** The status a call gives a quest. */
  function StatusBy(call: Call, q: Symbol): Option<QuestStatus> {
    match call
    case OnQuest(PauseQuest(_, p)) => if p == q then Some(Paused) else None
    case OnQuest(ResumeQuest(_, p)) => if p == q then Some(Active) else None
    case OnEscrow(Cancel(p, _)) => if p == q then Some(Cancelled) else None
    case OnEscrow(Expire(p, _)) => if p == q then Some(Expired) else None
    case _ => None
  }

  predicate ClaimsOn(call: Call, q: Symbol) {
    call.OnQuest? && call.quest.Claim? && call.quest.quest == q
  }

  /** The terms of the accepted registration of a quest. */
  ghost function TermsStory(txs: seq<Tx>, q: Symbol): Option<Terms> {
    if txs == [] then None else
      var last := LastAccepted(txs);
      if last.Some? && TermsBy(last.value, q).Some? then TermsBy(last.value, q)
      else TermsStory(txs[..|txs| - 1], q)
  }

  /** How many claims on a quest were accepted. */
  ghost function ClaimStory(txs: seq<Tx>, q: Symbol): nat {
    if txs == [] then 0 else
      var last := LastAccepted(txs);
      ClaimStory(txs[..|txs| - 1], q) + if last.Some? && ClaimsOn(last.value, q) then 1 else 0
  }

  /** Active when registered, then what the last accepted pause, resumption, cancellation or expiry gave. */
  ghost function StatusStory(txs: seq<Tx>, q: Symbol): QuestStatus {
    if txs == [] then Active else
      var last := LastAccepted(txs);
      if last.Some? && TermsBy(last.value, q).Some? then Active
      else if last.Some? && StatusBy(last.value, q).Some? then StatusBy(last.value, q).value
      else StatusStory(txs[..|txs| - 1], q)
  }

  /** The quest as its terms, its status and its count of claims tell it. */
  predicate ToldQuest(quest: Quest, terms: Terms, status: QuestStatus, claims: int) {
    && quest.id == terms.item.id && quest.creator == terms.creator && quest.asset == terms.item.asset
    && quest.reward == terms.item.reward && quest.verifier == terms.item.verifier
    && quest.deadline == terms.item.deadline && quest.status == status && quest.totalClaims == claims
  }

  /** What an accepted call does to the record of one quest. */
  ghost predicate QuestMoved(quests: map<Symbol, Quest>, quests': map<Symbol, Quest>, call: Call, q: Symbol) {
    if TermsBy(call, q).Some? then
      q !in quests && q in quests' && ToldQuest(quests'[q], TermsBy(call, q).value, Active, 0)
    else if StatusBy(call, q).Some? then
      q in quests && q in quests' && quests'[q] == quests[q].(status := StatusBy(call, q).value)
    else if ClaimsOn(call, q) then
      && q in quests && q in quests' && quests[q].totalClaims < U32_MAX
      && quests'[q] == quests[q].(totalClaims := quests[q].totalClaims + 1)
    else
      (q in quests' <==> q in quests) && (q in quests ==> quests'[q] == quests[q])
  }

  lemma {:induction false} BatchRegisters(s: State, creator: Address, items: seq<QuestInput>, q: Symbol)
    requires ItemsCheck(s, creator, items).Pass?
    ensures var quests' := RegisteredAll(s, creator, items).quests;
      match ItemFor(items, q)
      case None => (q in quests' <==> q in s.quests) && (q in s.quests ==> quests'[q] == s.quests[q])
      case Some(item) =>
        q !in s.quests && q in quests' && ToldQuest(quests'[q], Terms(creator, item), Active, 0)
    decreases |items|
  {
    if items == [] {
    } else {
      var s' := Registered(s, creator, items[0]);
      BatchRegisters(s', creator, items[1..], q);
    }
  }

  lemma SetUpMovesQuests(s: State, auth: set<Address>, op: QuestOp, q: Symbol)
    requires SetsUp(op) && QuestCheck(s, auth, op).Pass?
    ensures QuestMoved(s.quests, QuestEffect(s, auth, op).quests, OnQuest(op), q)
  {
    if op.RegisterBatch? { BatchRegisters(s, op.creator, op.items, q); }
  }

  lemma ClaimMovesQuests(s: State, auth: set<Address>, p: Symbol, u: Address, q: Symbol)
    requires ClaimCheck(s, auth, p, u).Pass?
    ensures QuestMoved(s.quests, ClaimEffect(s, auth, p, u).quests, OnQuest(Claim(p, u)), q)
  {
    ClaimClaims(s, auth, p, u);
  }

  lemma QuestOpsMoveQuests(s: State, auth: set<Address>, op: QuestOp, q: Symbol)
    requires QuestCheck(s, auth, op).Pass?
    ensures QuestMoved(s.quests, QuestEffect(s, auth, op).quests, OnQuest(op), q)
  {
    if SetsUp(op) {
      SetUpMovesQuests(s, auth, op, q);
    } else {
      match op
      case Claim(p, u) => ClaimMovesQuests(s, auth, p, u, q);
      case ApproveBatch(v, items) => ClaimLifecycle.ApprovalsKeepRest(s, v, items);
      case GrantBadge(_, user, badge) => assert BadgeEffect(s, user, badge).quests == s.quests;
      case _ =>
    }
  }

  lemma EscrowOpsMoveQuests(s: State, auth: set<Address>, op: EscrowOp, q: Symbol)
    requires EscrowCheck(s, auth, op).Pass?
    ensures QuestMoved(s.quests, EscrowEffect(s, auth, op).quests, OnEscrow(op), q)
  {
  }

  lemma QuestAfter(s: State, tx: Tx, q: Symbol)
    requires Check(s, tx).Pass?
    ensures QuestMoved(s.quests, Next(s, tx).quests, tx.call, q)
  {
    match tx.call
    case OnQuest(op) => QuestOpsMoveQuests(s, tx.auth, op, q);
    case OnEscrow(op) => EscrowOpsMoveQuests(s, tx.auth, op, q);
    case OnGuard(op) => GuardKeeps(s, tx.auth, op);
    case Outside(event) => OutsideKeeps(s, tx.auth, event);
  }

  /** The record of a quest is what the accepted calls say. */
  ghost predicate QuestTold(txs: seq<Tx>, quests: map<Symbol, Quest>, q: Symbol) {
    match TermsStory(txs, q)
    case None => q !in quests && ClaimStory(txs, q) == 0
    case Some(terms) => q in quests && ToldQuest(quests[q], terms, StatusStory(txs, q), ClaimStory(txs, q))
  }

  lemma {:induction false} QuestStep(txs: seq<Tx>, quests: map<Symbol, Quest>, quests': map<Symbol, Quest>, q: Symbol)
    requires txs != [] && LastAccepted(txs).Some? && QuestTold(txs[..|txs| - 1], quests, q)
    requires QuestMoved(quests, quests', LastAccepted(txs).value, q)
    ensures QuestTold(txs, quests', q)
  {
  }

  /**
   In every reachable state a quest is stored exactly when a registration of it was accepted,
   single, described or in a batch. Its terms are those registered, its claims are counted by
   the accepted claims, and its status is the one last set.
   */
  lemma {:induction false} QuestsAreToldByCalls(txs: seq<Tx>, q: Symbol)
    ensures QuestTold(txs, Run(GENESIS, txs).quests, q)
  {
    if txs == [] {
    } else {
      var s, tx := Run(GENESIS, txs[..|txs| - 1]), txs[|txs| - 1];
      QuestsAreToldByCalls(txs[..|txs| - 1], q);
      if Check(s, tx).Pass? {
        QuestAfter(s, tx, q);
        QuestStep(txs, s.quests, Next(s, tx).quests, q);
      }
    }
  }

  // ----- submissions -----

  /** A new proof, an approval in a batch, or the payment of a submission. */
  predicate Submits(call: Call, k: SubmissionKey) {
    call.OnQuest? && call.quest.Submit? && (call.quest.quest, call.quest.submitter) == k
  }

  predicate ApprovesIn(call: Call, k: SubmissionKey) {
    call.OnQuest? && call.quest.ApproveBatch? && ApprovalInput(k.0, k.1) in call.quest.approvals
  }

  predicate Pays(call: Call, k: SubmissionKey) {
    call.OnQuest? && call.quest.Claim? && (call.quest.quest, call.quest.submitter) == k
  }

  /** The last accepted proof of a user for a quest, and when it came. */
  ghost function ProofStory(txs: seq<Tx>, k: SubmissionKey): Option<(Hash, u64)> {
    if txs == [] then None else
      var before, last := txs[..|txs| - 1], LastAccepted(txs);
      if last.Some? && Submits(last.value, k) then Some((last.value.quest.proof, Run(GENESIS, before).now))
      else ProofStory(before, k)
  }

  /** Pending when submitted, approved when approved in a batch, paid when claimed. */
  ghost function FateStory(txs: seq<Tx>, k: SubmissionKey): SubmissionStatus {
    if txs == [] then Pending else
      var last := LastAccepted(txs);
      if last.Some? && Submits(last.value, k) then Pending
      else if last.Some? && ApprovesIn(last.value, k) then Approved
      else if last.Some? && Pays(last.value, k) then Paid
      else FateStory(txs[..|txs| - 1], k)
  }

  ghost predicate SubmissionMoved(s: State, subs': map<SubmissionKey, Submission>, call: Call, k: SubmissionKey) {
    if Submits(call, k) then
      k in subs' && subs'[k] == Submission(k.0, k.1, call.quest.proof, Pending, s.now)
    else if ApprovesIn(call, k) then
      k in s.subs && s.subs[k].status.Pending? && k in subs' && subs'[k] == s.subs[k].(status := Approved)
    else if Pays(call, k) then
      k in s.subs && s.subs[k].status.Approved? && k in subs' && subs'[k] == s.subs[k].(status := Paid)
    else
      (k in subs' <==> k in s.subs) && (k in s.subs ==> subs'[k] == s.subs[k])
  }

  lemma BatchApproves(s: State, auth: set<Address>, v: Address, items: seq<ApprovalInput>, k: SubmissionKey)
    requires QuestCheck(s, auth, ApproveBatch(v, items)).Pass?
    ensures SubmissionMoved(s, QuestEffect(s, auth, ApproveBatch(v, items)).subs, OnQuest(ApproveBatch(v, items)), k)
  {
    BatchApproval(s, auth, v, items);
  }

  lemma ClaimPays(s: State, auth: set<Address>, q: Symbol, u: Address, k: SubmissionKey)
    requires ClaimCheck(s, auth, q, u).Pass?
    ensures SubmissionMoved(s, ClaimEffect(s, auth, q, u).subs, OnQuest(Claim(q, u)), k)
  {
    ClaimClaims(s, auth, q, u);
  }

  lemma QuestOpsMoveSubmissions(s: State, auth: set<Address>, op: QuestOp, k: SubmissionKey)
    requires QuestCheck(s, auth, op).Pass?
    ensures SubmissionMoved(s, QuestEffect(s, auth, op).subs, OnQuest(op), k)
  {
    if SetsUp(op) {
      ClaimLifecycle.SetUpKeepsSubs(s, auth, op);
    } else {
      match op
      case ApproveBatch(v, items) => BatchApproves(s, auth, v, items, k);
      case Claim(q, u) => ClaimPays(s, auth, q, u, k);
      case GrantBadge(_, user, badge) => assert BadgeEffect(s, user, badge).subs == s.subs;
      case _ =>
    }
  }

  lemma SubmissionAfter(s: State, tx: Tx, k: SubmissionKey)
    requires Check(s, tx).Pass?
    ensures SubmissionMoved(s, Next(s, tx).subs, tx.call, k)
  {
    if tx.call.OnQuest? {
      QuestOpsMoveSubmissions(s, tx.auth, tx.call.quest, k);
    } else {
      OthersKeepSubs(s, tx);
    }
  }

  ghost predicate SubmissionTold(txs: seq<Tx>, subs: map<SubmissionKey, Submission>, k: SubmissionKey) {
    match ProofStory(txs, k)
    case None => k !in subs
    case Some(p) => k in subs && subs[k] == Submission(k.0, k.1, p.0, FateStory(txs, k), p.1)
  }

  lemma {:induction false} SubmissionStep(txs: seq<Tx>, s: State, subs': map<SubmissionKey, Submission>,
      k: SubmissionKey)
    requires txs != [] && LastAccepted(txs).Some? && s == Run(GENESIS, txs[..|txs| - 1])
    requires SubmissionTold(txs[..|txs| - 1], s.subs, k) && SubmissionMoved(s, subs', LastAccepted(txs).value, k)
    ensures SubmissionTold(txs, subs', k)
  {
  }

  /**
   In every reachable state a submission is stored exactly when a proof was accepted. It holds
   the last proof and its time, and its status is the one last decided since: no call rejects.
   */
  lemma {:induction false} SubmissionsAreToldByCalls(txs: seq<Tx>, k: SubmissionKey)
    ensures SubmissionTold(txs, Run(GENESIS, txs).subs, k)
  {
    if txs == [] {
    } else {
      var s, tx := Run(GENESIS, txs[..|txs| - 1]), txs[|txs| - 1];
      SubmissionsAreToldByCalls(txs[..|txs| - 1], k);
      if Check(s, tx).Pass? {
        SubmissionAfter(s, tx, k);
        SubmissionStep(txs, s, Next(s, tx).subs, k);
      }
    }
  }

  // ----- reputation -----

  /** How many claims of a user were accepted. */
  ghost function CompletionStory(txs: seq<Tx>, u: Address): nat {
    if txs == [] then 0 else
      var last := LastAccepted(txs);
      CompletionStory(txs[..|txs| - 1], u) + if last.Some? && Completes(last.value, u) then 1 else 0
  }

  predicate Completes(call: Call, u: Address) {
    call.OnQuest? && call.quest.Claim? && call.quest.submitter == u
  }

  predicate Decorates(call: Call, u: Address) {
    call.OnQuest? && call.quest.GrantBadge? && call.quest.user == u
  }

  /** The badges granted to a user, each where it was first granted. */
  ghost function BadgeStory(txs: seq<Tx>, u: Address): seq<Badge> {
    if txs == [] then [] else
      var earlier, last := BadgeStory(txs[..|txs| - 1], u), LastAccepted(txs);
      if last.Some? && Decorates(last.value, u) && last.value.quest.badge !in earlier
      then earlier + [last.value.quest.badge] else earlier
  }

  ghost predicate StatsMoved(s: State, stats': map<Address, UserStats>, call: Call, u: Address) {
    if Completes(call, u) then
      && u in stats' && stats'[u].xp == StatsOf(s, u).xp + 100
      && stats'[u].level == LevelOf(StatsOf(s, u).xp + 100)
      && stats'[u].questsCompleted == StatsOf(s, u).questsCompleted + 1
      && stats'[u].badges == StatsOf(s, u).badges
    else if Decorates(call, u) then
      var had := StatsOf(s, u).badges;
      if call.quest.badge in had then stats' == s.stats
      else u in stats' && stats'[u] == StatsOf(s, u).(badges := had + [call.quest.badge])
    else
      (u in stats' <==> u in s.stats) && (u in s.stats ==> stats'[u] == s.stats[u])
  }

  lemma ClaimMovesStats(s: State, auth: set<Address>, q: Symbol, p: Address, u: Address)
    requires ClaimCheck(s, auth, q, p).Pass?
    ensures StatsMoved(s, ClaimEffect(s, auth, q, p).stats, OnQuest(Claim(q, p)), u)
  {
    ClaimClaims(s, auth, q, p);
  }

  lemma BadgeMovesStats(s: State, caller: Address, p: Address, badge: Badge, u: Address)
    ensures StatsMoved(s, BadgeEffect(s, p, badge).stats, OnQuest(GrantBadge(caller, p, badge)), u)
  {
    var had := StatsOf(s, p);
    assert BadgeEffect(s, p, badge).stats ==
      if badge in had.badges then s.stats else s.stats[p := had.(badges := had.badges + [badge])];
  }

  lemma {:induction false} RegistrationsKeepStats(s: State, creator: Address, items: seq<QuestInput>)
    ensures RegisteredAll(s, creator, items).stats == s.stats
  {
    RegisteredAllKeepsRest(s, creator, items);
  }

  lemma QuestOpsMoveStats(s: State, auth: set<Address>, op: QuestOp, u: Address)
    requires QuestCheck(s, auth, op).Pass?
    ensures StatsMoved(s, QuestEffect(s, auth, op).stats, OnQuest(op), u)
  {
    match op
    case Claim(q, p) => ClaimMovesStats(s, auth, q, p, u);
    case GrantBadge(caller, p, badge) => BadgeMovesStats(s, caller, p, badge, u);
    case RegisterBatch(creator, items) => RegistrationsKeepStats(s, creator, items);
    case ApproveBatch(v, items) => ClaimLifecycle.ApprovalsKeepRest(s, v, items);
    case _ =>
  }

  lemma StatsAfter(s: State, tx: Tx, u: Address)
    requires Check(s, tx).Pass?
    ensures StatsMoved(s, Next(s, tx).stats, tx.call, u)
  {
    match tx.call
    case OnQuest(op) => QuestOpsMoveStats(s, tx.auth, op, u);
    case OnEscrow(op) => EscrowOpsKeep(s, tx.auth, op);
    case OnGuard(op) => GuardKeeps(s, tx.auth, op);
    case Outside(event) => OutsideKeeps(s, tx.auth, event);
  }

  predicate ToldStats(stats: UserStats, claims: nat, badges: seq<Badge>) {
    && stats.xp == 100 * claims && stats.level == ClaimLifecycle.LevelAfter(claims) && stats.questsCompleted == claims
    && stats.badges == badges
  }

  /** A hundred points for each claim, the level that follows, and the badges granted. */
  ghost predicate StatsTold(txs: seq<Tx>, stats: map<Address, UserStats>, u: Address) {
    var n, badges := CompletionStory(txs, u), BadgeStory(txs, u);
    (u in stats <==> n > 0 || badges != []) && (u in stats ==> ToldStats(stats[u], n, badges))
  }

  lemma {:induction false} StatsStep(txs: seq<Tx>, s: State, stats': map<Address, UserStats>, u: Address)
    requires txs != [] && LastAccepted(txs).Some? && StatsTold(txs[..|txs| - 1], s.stats, u)
    requires StatsMoved(s, stats', LastAccepted(txs).value, u)
    ensures StatsTold(txs, stats', u)
  {
  }

  /** In every reachable state a user has statistics exactly when they claimed or were given a badge. */
  lemma {:induction false} ReputationIsToldByCalls(txs: seq<Tx>, u: Address)
    ensures StatsTold(txs, Run(GENESIS, txs).stats, u)
  {
    if txs == [] {
    } else {
      var s, tx := Run(GENESIS, txs[..|txs| - 1]), txs[|txs| - 1];
      ReputationIsToldByCalls(txs[..|txs| - 1], u);
      if Check(s, tx).Pass? {
        StatsAfter(s, tx, u);
        StatsStep(txs, s, Next(s, tx).stats, u);
      }
    }
  }

  // ----- metadata -----

  /** The metadata a call gives a quest. */
  function MetadataBy(call: Call, q: Symbol): Option<QuestMetadata> {
    match call
    case OnQuest(RegisterDescribed(_, item, m)) => if item.id == q then Some(m) else None
    case OnQuest(Describe(p, _, m)) => if p == q then Some(m) else None
    case _ => None
  }

  ghost function MetadataStory(txs: seq<Tx>, q: Symbol): Option<QuestMetadata> {
    if txs == [] then None else
      var last := LastAccepted(txs);
      if last.Some? && MetadataBy(last.value, q).Some? then MetadataBy(last.value, q)
      else MetadataStory(txs[..|txs| - 1], q)
  }

  function MetadataOf(s: State, q: Symbol): Option<QuestMetadata> {
    if q in s.metadata then Some(s.metadata[q]) else None
  }

  lemma QuestOpsMoveMetadata(s: State, auth: set<Address>, op: QuestOp, q: Symbol)
    requires QuestCheck(s, auth, op).Pass?
    ensures MetadataOf(QuestEffect(s, auth, op), q) ==
      if MetadataBy(OnQuest(op), q).Some? then MetadataBy(OnQuest(op), q) else MetadataOf(s, q)
  {
    match op
    case RegisterBatch(creator, items) => RegisteredAllKeepsRest(s, creator, items);
    case ApproveBatch(v, items) => ClaimLifecycle.ApprovalsKeepRest(s, v, items);
    case _ =>
  }

  lemma MetadataAfter(s: State, tx: Tx, q: Symbol)
    requires Check(s, tx).Pass?
    ensures MetadataOf(Next(s, tx), q) ==
      if MetadataBy(tx.call, q).Some? then MetadataBy(tx.call, q) else MetadataOf(s, q)
  {
    match tx.call
    case OnQuest(op) => QuestOpsMoveMetadata(s, tx.auth, op, q);
    case OnEscrow(op) => EscrowOpsKeep(s, tx.auth, op);
    case OnGuard(op) => assert GuardEffect(s, tx.auth, op).metadata == s.metadata;
    case Outside(event) => OutsideKeeps(s, tx.auth, event);
  }

  /** A quest's metadata is what was last given to it, if anything was. */
  lemma {:induction false} MetadataIsToldByCalls(txs: seq<Tx>, q: Symbol)
    ensures MetadataOf(Run(GENESIS, txs), q) == MetadataStory(txs, q)
  {
    if txs == [] {
    } else {
      var s, tx := Run(GENESIS, txs[..|txs| - 1]), txs[|txs| - 1];
      MetadataIsToldByCalls(txs[..|txs| - 1], q);
      if Check(s, tx).Pass? { MetadataAfter(s, tx, q); }
    }
  }

  // ----- governance -----

  /** The governance call a run ends in, if it is accepted. */
  ghost function LastGoverning(txs: seq<Tx>): Option<GuardOp>
    requires txs != []
  {
    var last := LastAccepted(txs);
    if last.Some? && last.value.OnGuard? then Some(last.value.op) else None
  }

  /** An admin is who initialised the contract or was added, and has not been removed since. */
  ghost predicate AdminStory(txs: seq<Tx>, a: Address) {
    txs != [] &&
    var before, last := txs[..|txs| - 1], LastGoverning(txs);
    if last == Some(Initialize(a)) then true
    else if last.Some? && last.value.AddAdmin? && last.value.admin == a then true
    else if last.Some? && last.value.RemoveAdmin? && last.value.admin == a then false
    else AdminStory(before, a)
  }

  /** Somebody has initialised the contract. */
  ghost predicate InitializedStory(txs: seq<Tx>) {
    txs != [] &&
    ((LastGoverning(txs).Some? && LastGoverning(txs).value.Initialize?) || InitializedStory(txs[..|txs| - 1]))
  }

  /** The last accepted pause or unpause was a pause. */
  ghost predicate PausedStory(txs: seq<Tx>) {
    txs != [] &&
    var last := LastGoverning(txs);
    if last.Some? && last.value.EmergencyPause? then true
    else if last.Some? && last.value.Unpause? then false
    else PausedStory(txs[..|txs| - 1])
  }

  /** The threshold last set, two before that; the timelock last set, none before that. */
  ghost function ThresholdStory(txs: seq<Tx>): int {
    if txs == [] then 2 else
      var last := LastGoverning(txs);
      if last.Some? && last.value.SetThreshold? then last.value.threshold else ThresholdStory(txs[..|txs| - 1])
  }

  ghost function TimelockStory(txs: seq<Tx>): int {
    if txs == [] then 0 else
      var last := LastGoverning(txs);
      if last.Some? && last.value.SetTimelock? then last.value.seconds else TimelockStory(txs[..|txs| - 1])
  }

  ghost predicate GovernanceTold(txs: seq<Tx>, s: State) {
    && (forall a :: a in s.admins <==> AdminStory(txs, a)) && (s.initialized <==> InitializedStory(txs))
    && (s.guard.paused <==> PausedStory(txs))
    && s.guard.threshold == ThresholdStory(txs) && s.guard.timelock == TimelockStory(txs)
  }

  ghost predicate GovernanceMoved(s: State, s': State, op: GuardOp) {
    && (forall a :: a in s'.admins <==>
          op == Initialize(a) || (op.AddAdmin? && op.admin == a)
          || (a in s.admins && !(op.RemoveAdmin? && op.admin == a)))
    && (s'.initialized <==> s.initialized || op.Initialize?)
    && (s'.guard.paused <==> op.EmergencyPause? || (s.guard.paused && !op.Unpause?))
    && s'.guard.threshold == (if op.SetThreshold? then op.threshold else s.guard.threshold)
    && s'.guard.timelock == (if op.SetTimelock? then op.seconds else s.guard.timelock)
  }

  lemma GovernanceAfter(s: State, auth: set<Address>, op: GuardOp)
    requires GuardCheck(s, auth, op).Pass?
    ensures GovernanceMoved(s, GuardEffect(s, auth, op), op)
  {
  }

  lemma QuestOpsKeepAdmins(s: State, auth: set<Address>, op: QuestOp)
    requires QuestCheck(s, auth, op).Pass?
    ensures QuestEffect(s, auth, op).admins == s.admins && QuestEffect(s, auth, op).initialized == s.initialized
  {
    match op
    case RegisterBatch(creator, items) => RegisteredAllKeepsRest(s, creator, items);
    case ApproveBatch(v, items) => ClaimLifecycle.ApprovalsKeepRest(s, v, items);
    case _ =>
  }

  lemma OthersKeepAdmins(s: State, tx: Tx)
    requires !tx.call.OnGuard?
    ensures Next(s, tx).admins == s.admins && Next(s, tx).initialized == s.initialized
  {
    if Check(s, tx).Pass? {
      match tx.call
      case OnQuest(op) => QuestOpsKeepAdmins(s, tx.auth, op);
      case OnEscrow(op) => EscrowOpsKeep(s, tx.auth, op);
      case Outside(event) => OutsideKeeps(s, tx.auth, event);
    }
  }

  lemma {:induction false} GovernanceStep(txs: seq<Tx>, s: State, s': State)
    requires txs != [] && LastGoverning(txs).Some? && GovernanceTold(txs[..|txs| - 1], s)
    requires GovernanceMoved(s, s', LastGoverning(txs).value)
    ensures GovernanceTold(txs, s')
  {
  }

  /** Admins, pause, threshold and timelock are in every reachable state what the accepted calls made them. */
  lemma {:induction false} GovernanceIsToldByCalls(txs: seq<Tx>)
    ensures GovernanceTold(txs, Run(GENESIS, txs))
  {
    if txs == [] {
    } else {
      var s, tx := Run(GENESIS, txs[..|txs| - 1]), txs[|txs| - 1];
      GovernanceIsToldByCalls(txs[..|txs| - 1]);
      if !tx.call.OnGuard? {
        OthersKeepAdmins(s, tx);
        ClaimPause.OthersKeepGuard(s, tx);
      } else if Check(s, tx).Pass? {
        GovernanceAfter(s, tx.auth, tx.call.op);
        GovernanceStep(txs, s, Next(s, tx));
      }
    }
  }

  // ----- escrow -----

  predicate DepositsTo(call: Call, q: Symbol) {
    call.OnEscrow? && call.escrow.Deposit? && call.escrow.quest == q
  }

  /** The accepted deposits for a quest: how many, how much in all, and when the first came. */
  ghost function DepositCount(txs: seq<Tx>, q: Symbol): nat {
    if txs == [] then 0 else
      var last := LastAccepted(txs);
      DepositCount(txs[..|txs| - 1], q) + if last.Some? && DepositsTo(last.value, q) then 1 else 0
  }

  ghost function DepositSum(txs: seq<Tx>, q: Symbol): int {
    if txs == [] then 0 else
      var last := LastAccepted(txs);
      DepositSum(txs[..|txs| - 1], q) + if last.Some? && DepositsTo(last.value, q) then last.value.escrow.amount else 0
  }

  ghost function FirstDeposit(txs: seq<Tx>, q: Symbol): int {
    if txs == [] then 0 else
      var before, last := txs[..|txs| - 1], LastAccepted(txs);
      if last.Some? && DepositsTo(last.value, q) && DepositCount(before, q) == 0 then Run(GENESIS, before).now
      else FirstDeposit(before, q)
  }

  /** How many claims were accepted after the first deposit: those were paid out of the escrow. */
  ghost function EscrowClaims(txs: seq<Tx>, q: Symbol): nat {
    if txs == [] then 0 else
      var before, last := txs[..|txs| - 1], LastAccepted(txs);
      EscrowClaims(before, q) + if last.Some? && ClaimsOn(last.value, q) && DepositCount(before, q) > 0 then 1 else 0
  }

  ghost predicate EscrowMoved(s: State, s': State, call: Call, q: Symbol) {
    if DepositsTo(call, q) then
      && q in s'.escrows && s'.escrows[q].deposited == Deposited(s, q) + call.escrow.amount
      && s'.escrows[q].depositCount == Deposits(s, q) + 1 && s'.escrows[q].paidOut == PaidBy(s, q)
      && s'.escrows[q].createdAt == if q in s.escrows then s.escrows[q].createdAt else s.now
    else if q !in s.escrows then q !in s'.escrows
    else
      && q in s'.escrows && s'.escrows[q].deposited == s.escrows[q].deposited
      && s'.escrows[q].depositCount == s.escrows[q].depositCount
      && s'.escrows[q].createdAt == s.escrows[q].createdAt
      && (if ClaimsOn(call, q) then q in s.quests && PaidBy(s', q) == PaidBy(s, q) + s.quests[q].reward
          else PaidBy(s', q) == PaidBy(s, q))
  }

  function Deposited(s: State, q: Symbol): int {
    if q in s.escrows then s.escrows[q].deposited else 0
  }

  function Deposits(s: State, q: Symbol): int {
    if q in s.escrows then s.escrows[q].depositCount else 0
  }

  function PaidBy(s: State, q: Symbol): int {
    if q in s.escrows then s.escrows[q].paidOut else 0
  }

  lemma ClaimMovesEscrow(s: State, auth: set<Address>, p: Symbol, u: Address, q: Symbol)
    requires ClaimCheck(s, auth, p, u).Pass?
    ensures EscrowMoved(s, ClaimEffect(s, auth, p, u), OnQuest(Claim(p, u)), q)
  {
    ClaimClaims(s, auth, p, u);
  }

  lemma QuestOpsMoveEscrow(s: State, auth: set<Address>, op: QuestOp, q: Symbol)
    requires QuestCheck(s, auth, op).Pass?
    ensures EscrowMoved(s, QuestEffect(s, auth, op), OnQuest(op), q)
  {
    if op.Claim? {
      ClaimMovesEscrow(s, auth, op.quest, op.submitter, q);
    } else {
      OtherOpsKeepEscrows(s, auth, op);
    }
  }

  lemma OtherOpsKeepEscrows(s: State, auth: set<Address>, op: QuestOp)
    requires !op.Claim? && QuestCheck(s, auth, op).Pass?
    ensures QuestEffect(s, auth, op).escrows == s.escrows
  {
    match op
    case RegisterBatch(creator, items) => RegisteredAllKeepsRest(s, creator, items);
    case ApproveBatch(v, items) => ClaimLifecycle.ApprovalsKeepRest(s, v, items);
    case _ =>
  }

  lemma EscrowOpsMoveEscrow(s: State, auth: set<Address>, op: EscrowOp, q: Symbol)
    requires EscrowCheck(s, auth, op).Pass?
    ensures EscrowMoved(s, EscrowEffect(s, auth, op), OnEscrow(op), q)
  {
  }

  lemma EscrowAfter(s: State, tx: Tx, q: Symbol)
    requires Check(s, tx).Pass?
    ensures EscrowMoved(s, Next(s, tx), tx.call, q)
  {
    match tx.call
    case OnQuest(op) => QuestOpsMoveEscrow(s, tx.auth, op, q);
    case OnEscrow(op) => EscrowOpsMoveEscrow(s, tx.auth, op, q);
    case OnGuard(op) => GuardKeeps(s, tx.auth, op);
    case Outside(event) => OutsideKeeps(s, tx.auth, event);
  }

  /** The escrow is there from the first deposit on and books the deposits; claims since then are paid out of it. */
  ghost predicate EscrowTold(txs: seq<Tx>, s: State, q: Symbol) {
    && (q in s.escrows <==> DepositCount(txs, q) > 0) && (q in s.escrows ==> q in s.quests)
    && Deposited(s, q) == DepositSum(txs, q) && Deposits(s, q) == DepositCount(txs, q)
    && (q in s.quests ==> PaidBy(s, q) == s.quests[q].reward * EscrowClaims(txs, q))
    && (if q in s.escrows then s.escrows[q].createdAt == FirstDeposit(txs, q) else EscrowClaims(txs, q) == 0)
  }

  lemma RewardTimes(reward: int, claims: nat)
    ensures reward * (claims + 1) == reward * claims + reward
  {
  }

  lemma {:induction false} EscrowStep(txs: seq<Tx>, s: State, s': State, q: Symbol)
    requires txs != [] && LastAccepted(txs).Some? && s == Run(GENESIS, txs[..|txs| - 1])
    requires EscrowTold(txs[..|txs| - 1], s, q) && EscrowMoved(s, s', LastAccepted(txs).value, q)
    requires q in s.quests ==> q in s'.quests && s'.quests[q].reward == s.quests[q].reward
    requires q in s'.escrows ==> q in s'.quests
    requires DepositsTo(LastAccepted(txs).value, q) ==> q in s.quests
    ensures EscrowTold(txs, s', q)
  {
    if q in s.quests { RewardTimes(s.quests[q].reward, EscrowClaims(txs[..|txs| - 1], q)); }
  }

  lemma {:induction false} EscrowTelling(txs: seq<Tx>, q: Symbol)
    ensures EscrowTold(txs, Run(GENESIS, txs), q)
  {
    if txs == [] {
    } else {
      var s, tx := Run(GENESIS, txs[..|txs| - 1]), txs[|txs| - 1];
      EscrowTelling(txs[..|txs| - 1], q);
      if Check(s, tx).Pass? {
        InvGenesis();
        InvRun(GENESIS, txs);
        EscrowAfter(s, tx, q);
        QuestAfter(s, tx, q);
        assert DepositsTo(tx.call, q) ==> q in s.quests;
        EscrowStep(txs, s, Next(s, tx), q);
      }
    }
  }

  /**
   In every reachable state a quest has an escrow exactly when a deposit for it was accepted.
   It has received those deposits, has paid a reward for each claim since the first of them,
   and has refunded nothing while the quest can run and all the rest once it has ended.
   */
  lemma {:induction false} EscrowsAreToldByCalls(txs: seq<Tx>, q: Symbol)
    ensures var s := Run(GENESIS, txs);
      && (q in s.escrows <==> DepositCount(txs, q) > 0)
      && (q in s.escrows ==>
            && q in s.quests
            && var quest, e := s.quests[q], s.escrows[q];
               && e.depositor == quest.creator && e.token == quest.asset && (e.active <==> !Terminal(quest.status))
               && e.deposited == DepositSum(txs, q) && e.depositCount == DepositCount(txs, q)
               && e.createdAt == FirstDeposit(txs, q) && e.paidOut == quest.reward * EscrowClaims(txs, q)
               && e.refunded == if Terminal(quest.status) then e.deposited - e.paidOut else 0)
  {
    InvGenesis();
    InvRun(GENESIS, txs);
    EscrowTelling(txs, q);
  }
}
