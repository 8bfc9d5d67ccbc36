/**
 What the contract that pays on approval stores, told by the calls a run accepted: every
 stored record is what those calls, counted and put in order, say it is.
 */
module InstantStory {
  import opened Prelude
  import opened Tokens
  import opened InstantTypes
  import opened InstantSpec
  import opened InstantInvariant
  import opened InstantRuns
  import opened InstantPause

  /** The quest call a transaction makes, if it is accepted. */
  ghost function Accepted(s: State, tx: Tx): Option<QuestOp> {
    if tx.call.OnQuest? && Check(s, tx).Pass? then Some(tx.call.quest) else None
  }

  /** The quest call the last transaction of a run makes, if it is accepted. */
  ghost function LastAccepted(txs: seq<Tx>): Option<QuestOp>
    requires txs != []
  {
    Accepted(Run(GENESIS, txs[..|txs| - 1]), txs[|txs| - 1])
  }

  lemma OthersKeepRecords(s: State, tx: Tx)
    requires Accepted(s, tx).None?
    ensures var s' := Next(s, tx); s'.quests == s.quests && s'.subs == s.subs && s'.stats == s.stats
  {
    match tx.call
    case OnQuest(_) =>
    case OnEscrow(op) => EscrowKeeps(s, tx.auth, op);
    case Control(op) => ControlKeeps(s, tx.auth, op);
    case Outside(event) => OutsideKeeps(s, tx.auth, event);
  }

  // ----- quests -----

  /** The accepted registration of a quest. */
  ghost function Registration(txs: seq<Tx>, q: Symbol): (r: Option<QuestOp>)
    ensures r.Some? ==> r.value.Register? && r.value.id == q
  {
    if txs == [] then None else
      var last := LastAccepted(txs);
      if last.Some? && last.value.Register? && last.value.id == q then last
      else Registration(txs[..|txs| - 1], q)
  }

  /** How many approvals on a quest were accepted. */
  ghost function Approvals(txs: seq<Tx>, q: Symbol): nat {
    if txs == [] then 0 else
      var last := LastAccepted(txs);
      Approvals(txs[..|txs| - 1], q) +
      if last.Some? && last.value.Approve? && last.value.quest == q then 1 else 0
  }

  /** The status the last call that sets one gave: the approval that takes the last place of an active quest is one. */
  ghost function StatusStory(txs: seq<Tx>, q: Symbol): QuestStatus {
    if txs == [] then Active else
      var before, last := txs[..|txs| - 1], LastAccepted(txs);
      if last.None? then StatusStory(before, q) else
        match last.value
        case Register(id, _, _, _, _, _, _) => if id == q then Active else StatusStory(before, q)
        case UpdateStatus(p, _, status) => if p == q then status else StatusStory(before, q)
        case Expire(p, _) => if p == q then Expired else StatusStory(before, q)
        case Cancel(p, _) => if p == q then Cancelled else StatusStory(before, q)
        case Approve(p, _, _) =>
          if p == q && StatusStory(before, q).Active? && Registration(before, q).Some?
             && Approvals(before, q) + 1 == Registration(before, q).value.maxParticipants
          then Completed else StatusStory(before, q)
        case _ => StatusStory(before, q)
  }

  /** The quest as its registration, its status and its count of claims tell it. */
  predicate ToldQuest(quest: Quest, c: QuestOp, status: QuestStatus, claims: int)
    requires c.Register?
  {
    && quest.id == c.id && quest.creator == c.creator && quest.asset == c.asset && quest.reward == c.reward
    && quest.verifier == c.verifier && quest.deadline == c.deadline && quest.maxParticipants == c.maxParticipants
    && quest.status == status && quest.totalClaims == claims
  }

  ghost predicate SameQuest(s: State, s': State, q: Symbol) {
    (q in s'.quests <==> q in s.quests) && (q in s.quests ==> s'.quests[q] == s.quests[q])
  }

  ghost predicate StatusSet(s: State, s': State, p: Symbol, status: QuestStatus, q: Symbol) {
    if p != q then SameQuest(s, s', q)
    else q in s.quests && q in s'.quests && s'.quests[q] == s.quests[q].(status := status)
  }

  /** One claim more; an active quest whose last place this takes is completed. */
  ghost predicate ClaimSet(s: State, s': State, p: Symbol, q: Symbol) {
    if p != q then SameQuest(s, s', q)
    else
      && q in s.quests && q in s'.quests && s.quests[q].totalClaims < s.quests[q].maxParticipants
      && s'.quests[q] == s.quests[q].(
           totalClaims := s.quests[q].totalClaims + 1,
           status := if s.quests[q].status.Active? && s.quests[q].totalClaims + 1 == s.quests[q].maxParticipants
                     then Completed else s.quests[q].status)
  }

  /** What one accepted call does to the record of one quest. */
  ghost predicate QuestMoved(s: State, s': State, op: QuestOp, q: Symbol) {
    match op
    case Register(id, _, _, _, _, _, _) =>
      if id == q then q !in s.quests && q in s'.quests && ToldQuest(s'.quests[q], op, Active, 0)
      else SameQuest(s, s', q)
    case UpdateStatus(p, _, status) => StatusSet(s, s', p, status, q)
    case Expire(p, _) => StatusSet(s, s', p, Expired, q)
    case Cancel(p, _) => StatusSet(s, s', p, Cancelled, q)
    case Approve(p, _, _) => ClaimSet(s, s', p, q)
    case _ => SameQuest(s, s', q)
  }

  lemma RegisterMoves(s: State, auth: set<Address>, op: QuestOp, q: Symbol)
    requires op.Register? && RegisterCheck(s, auth, op).Pass?
    ensures QuestMoved(s, RegisterEffect(s, op), op, q)
  {
  }

  lemma ApproveClaims(s: State, auth: set<Address>, p: Symbol, u: Address, v: Address, q: Symbol)
    requires ApproveCheck(s, auth, p, u, v).Pass?
    ensures ClaimSet(s, ApproveEffect(s, auth, p, u, v), p, q)
  {
    assert ApproveEffect(s, auth, p, u, v).quests == s.quests[p := Claimed(s.quests[p])];
  }

  lemma QuestAfter(s: State, auth: set<Address>, op: QuestOp, q: Symbol)
    requires QuestCheck(s, auth, op).Pass?
    ensures QuestMoved(s, QuestEffect(s, auth, op), op, q)
  {
    match op
    case Register(_, _, _, _, _, _, _) => RegisterMoves(s, auth, op, q);
    case Approve(p, u, v) => ApproveClaims(s, auth, p, u, v, q);
    case _ =>
  }

  /** The record of a quest is what the accepted calls say. */
  ghost predicate QuestTold(txs: seq<Tx>, quests: map<Symbol, Quest>, q: Symbol) {
    match Registration(txs, q)
    case None => q !in quests && Approvals(txs, q) == 0
    case Some(c) => q in quests && ToldQuest(quests[q], c, StatusStory(txs, q), Approvals(txs, q))
  }

  lemma {:induction false} QuestStep(txs: seq<Tx>, s: State, s': State, q: Symbol)
    requires txs != [] && LastAccepted(txs).Some? && QuestTold(txs[..|txs| - 1], s.quests, q)
    requires QuestMoved(s, s', LastAccepted(txs).value, q)
    ensures QuestTold(txs, s'.quests, q)
  {
  }

  /**
   In every reachable state a quest is stored exactly when a registration of it was accepted.
   Its terms are those of that registration, its claims are counted by the accepted
   approvals, and its status is the one last set.
   */
  lemma {:induction false} QuestsAreToldByCalls(txs: seq<Tx>, q: Symbol)
    ensures QuestTold(txs, Run(GENESIS, txs).quests, q)
  {
    if txs == [] {
    } else {
      var s, tx := Run(GENESIS, txs[..|txs| - 1]), txs[|txs| - 1];
      QuestsAreToldByCalls(txs[..|txs| - 1], q);
      if Accepted(s, tx).Some? {
        QuestAfter(s, tx.auth, tx.call.quest, q);
        QuestStep(txs, s, Next(s, tx), q);
      } else {
        OthersKeepRecords(s, tx);
      }
    }
  }

  // ----- submissions -----

  /** The accepted proof of a user for a quest, and when it came. */
  ghost function ProofStory(txs: seq<Tx>, k: SubmissionKey): Option<(Hash, u64)> {
    if txs == [] then None else
      var before, last := txs[..|txs| - 1], LastAccepted(txs);
      if last.Some? && last.value.Submit? && (last.value.quest, last.value.submitter) == k
      then Some((last.value.proof, Run(GENESIS, before).now)) else ProofStory(before, k)
  }

  /** Pending when submitted, paid when approved, rejected when rejected. */
  ghost function FateStory(txs: seq<Tx>, k: SubmissionKey): SubmissionStatus {
    if txs == [] then Pending else
      var before, last := txs[..|txs| - 1], LastAccepted(txs);
      if last.None? then FateStory(before, k) else
        match last.value
        case Submit(q, u, _) => if (q, u) == k then Pending else FateStory(before, k)
        case Approve(q, u, _) => if (q, u) == k then Paid else FateStory(before, k)
        case Reject(q, u, _) => if (q, u) == k then Rejected else FateStory(before, k)
        case _ => FateStory(before, k)
  }

  ghost predicate SameSubmission(s: State, s': State, k: SubmissionKey) {
    (k in s'.subs <==> k in s.subs) && (k in s.subs ==> s'.subs[k] == s.subs[k])
  }

  /** A pending submission is decided. */
  ghost predicate Decided(s: State, s': State, p: SubmissionKey, status: SubmissionStatus, k: SubmissionKey) {
    if p != k then SameSubmission(s, s', k)
    else k in s.subs && s.subs[k].status.Pending? && k in s'.subs && s'.subs[k] == s.subs[k].(status := status)
  }

  ghost predicate SubmissionMoved(s: State, s': State, op: QuestOp, k: SubmissionKey) {
    match op
    case Submit(q, u, proof) =>
      if (q, u) != k then SameSubmission(s, s', k)
      else k !in s.subs && k in s'.subs && s'.subs[k] == Submission(q, u, proof, Pending, s.now)
    case Approve(q, u, _) => Decided(s, s', (q, u), Paid, k)
    case Reject(q, u, _) => Decided(s, s', (q, u), Rejected, k)
    case _ => SameSubmission(s, s', k)
  }

  lemma ApproveDecides(s: State, auth: set<Address>, q: Symbol, u: Address, v: Address, k: SubmissionKey)
    requires ApproveCheck(s, auth, q, u, v).Pass?
    ensures Decided(s, ApproveEffect(s, auth, q, u, v), (q, u), Paid, k)
  {
  }

  lemma SubmissionAfter(s: State, auth: set<Address>, op: QuestOp, k: SubmissionKey)
    requires QuestCheck(s, auth, op).Pass?
    ensures SubmissionMoved(s, QuestEffect(s, auth, op), op, k)
  {
    match op
    case Approve(q, u, v) => ApproveDecides(s, auth, q, u, v, k);
    case _ =>
  }

  /**
   In every reachable state a submission is stored exactly when a proof was accepted. It holds
   that proof and the time it came, and its status is what was last decided on it.
   */
  lemma {:induction false} SubmissionsAreToldByCalls(txs: seq<Tx>, k: SubmissionKey)
    ensures var s := Run(GENESIS, txs);
      match ProofStory(txs, k)
      case None => k !in s.subs
      case Some(p) => k in s.subs && s.subs[k] == Submission(k.0, k.1, p.0, FateStory(txs, k), p.1)
  {
    if txs == [] {
    } else {
      var before, tx := txs[..|txs| - 1], txs[|txs| - 1];
      SubmissionsAreToldByCalls(before, k);
      if Accepted(Run(GENESIS, before), tx).Some? {
        SubmissionAfter(Run(GENESIS, before), tx.auth, tx.call.quest, k);
      } else {
        OthersKeepRecords(Run(GENESIS, before), tx);
      }
    }
  }

  // ----- reputation -----

  /** How many accepted approvals were for a user. */
  ghost function Completions(txs: seq<Tx>, u: Address): nat {
    if txs == [] then 0 else
      var last := LastAccepted(txs);
      Completions(txs[..|txs| - 1], u) +
      if last.Some? && last.value.Approve? && last.value.submitter == u then 1 else 0
  }

  /** The badges granted to a user, each where it was first granted. */
  ghost function BadgeStory(txs: seq<Tx>, u: Address): seq<Symbol> {
    if txs == [] then [] else
      var earlier, last := BadgeStory(txs[..|txs| - 1], u), LastAccepted(txs);
      if last.Some? && last.value.GrantBadge? && last.value.user == u && last.value.badge !in earlier
      then earlier + [last.value.badge] else earlier
  }

  ghost predicate SameStats(s: State, s': State, u: Address) {
    (u in s'.stats <==> u in s.stats) && (u in s.stats ==> s'.stats[u] == s.stats[u])
  }

  /** A hundred points, the level that follows, one more completion. */
  predicate Advanced(before: UserStats, after: UserStats) {
    && after.totalXp == before.totalXp + 100 && after.level == (before.totalXp + 100) / 100 + 1
    && after.questsCompleted == before.questsCompleted + 1 && after.badges == before.badges
  }

  predicate Decorated(before: UserStats, after: UserStats, badge: Symbol) {
    after == before.(badges := if badge in before.badges then before.badges else before.badges + [badge])
  }

  ghost predicate StatsMoved(s: State, s': State, op: QuestOp, u: Address) {
    match op
    case Approve(_, p, _) =>
      if p != u then SameStats(s, s', u) else u in s'.stats && Advanced(StatsOf(s, u), s'.stats[u])
    case GrantBadge(p, badge, _) =>
      if p != u then SameStats(s, s', u)
      else u in s.stats && u in s'.stats && Decorated(s.stats[u], s'.stats[u], badge)
    case _ => SameStats(s, s', u)
  }

  lemma ApproveRewards(s: State, auth: set<Address>, q: Symbol, p: Address, v: Address, u: Address)
    requires ApproveCheck(s, auth, q, p, v).Pass?
    ensures StatsMoved(s, ApproveEffect(s, auth, q, p, v), Approve(q, p, v), u)
  {
    assert ApproveEffect(s, auth, q, p, v).stats == s.stats[p := Awarded(StatsOf(s, p))];
  }

  lemma BadgeDecorates(s: State, p: Address, badge: Symbol, admin: Address, u: Address)
    requires p in s.stats
    ensures StatsMoved(s, BadgeEffect(s, p, badge), GrantBadge(p, badge, admin), u)
  {
  }

  lemma StatsAfter(s: State, auth: set<Address>, op: QuestOp, u: Address)
    requires QuestCheck(s, auth, op).Pass?
    ensures StatsMoved(s, QuestEffect(s, auth, op), op, u)
  {
    match op
    case Approve(q, p, v) => ApproveRewards(s, auth, q, p, v, u);
    case GrantBadge(p, badge, admin) => BadgeDecorates(s, p, badge, admin, u);
    case _ =>
  }

  /** A hundred points and one level for each completion, and the badges granted. */
  predicate ToldStats(stats: UserStats, n: nat, badges: seq<Symbol>) {
    stats.totalXp == 100 * n && stats.level == n + 1 && stats.questsCompleted == n && stats.badges == badges
  }

  ghost predicate StatsTold(txs: seq<Tx>, stats: map<Address, UserStats>, u: Address) {
    var n := Completions(txs, u);
    && (u in stats <==> n > 0)
    && (n > 0 ==> ToldStats(stats[u], n, BadgeStory(txs, u)))
    && (n == 0 ==> BadgeStory(txs, u) == [])
  }

  lemma {:induction false} StatsStep(txs: seq<Tx>, s: State, s': State, u: Address)
    requires txs != [] && LastAccepted(txs).Some? && StatsTold(txs[..|txs| - 1], s.stats, u)
    requires StatsMoved(s, s', LastAccepted(txs).value, u)
    ensures StatsTold(txs, s'.stats, u)
  {
  }

  /** In every reachable state a user has statistics exactly when a submission of theirs was approved. */
  lemma {:induction false} ReputationIsToldByCalls(txs: seq<Tx>, u: Address)
    ensures StatsTold(txs, Run(GENESIS, txs).stats, u)
  {
    if txs == [] {
    } else {
      var s, tx := Run(GENESIS, txs[..|txs| - 1]), txs[|txs| - 1];
      ReputationIsToldByCalls(txs[..|txs| - 1], u);
      if Accepted(s, tx).Some? {
        StatsAfter(s, tx.auth, tx.call.quest, u);
        StatsStep(txs, s, Next(s, tx), u);
      } else {
        OthersKeepRecords(s, tx);
      }
    }
  }

  // ----- administration -----

  /** The administrator named by the last accepted call that names one. */
  ghost function AdminStory(txs: seq<Tx>): Option<Address> {
    if txs == [] then None else
      var before, tx := txs[..|txs| - 1], txs[|txs| - 1];
      if !tx.call.Control? || Check(Run(GENESIS, before), tx).Fail? then AdminStory(before) else
        match tx.call.op
        case Initialize(admin) => Some(admin)
        case UpdateConfig(_, newAdmin) => if newAdmin.Some? then newAdmin else AdminStory(before)
        case _ => AdminStory(before)
  }

  lemma ControlSetsAdmin(s: State, auth: set<Address>, op: ControlOp)
    ensures var tx := Tx(auth, Control(op));
      Next(s, tx).admin ==
        if Check(s, tx).Pass? && op.Initialize? then Some(op.admin)
        else if Check(s, tx).Pass? && op.UpdateConfig? && op.newAdmin.Some? then op.newAdmin
        else s.admin
  {
  }

  lemma OthersKeepAdmin(s: State, tx: Tx)
    requires !tx.call.Control?
    ensures Next(s, tx).admin == s.admin
  {
    match tx.call
    case OnQuest(op) => QuestOpsKeepAdmin(s, tx.auth, op);
    case OnEscrow(op) => EscrowKeeps(s, tx.auth, op);
    case Outside(event) => OutsideKeeps(s, tx.auth, event);
  }

  lemma QuestOpsKeepAdmin(s: State, auth: set<Address>, op: QuestOp)
    ensures Next(s, Tx(auth, OnQuest(op))).admin == s.admin
  {
  }

  /** The administrator is always the one last named. */
  lemma {:induction false} AdminIsToldByCalls(txs: seq<Tx>)
    ensures Run(GENESIS, txs).admin == AdminStory(txs)
  {
    if txs == [] {
    } else {
      var before, tx := txs[..|txs| - 1], txs[|txs| - 1];
      AdminIsToldByCalls(before);
      if tx.call.Control? {
        ControlSetsAdmin(Run(GENESIS, before), tx.auth, tx.call.op);
      } else {
        OthersKeepAdmin(Run(GENESIS, before), tx);
      }
    }
  }

  // ----- the pause -----

  /** The administrative call a transaction makes, if it is accepted. */
  ghost function LastControl(txs: seq<Tx>): Option<ControlOp>
    requires txs != []
  {
    var s, tx := Run(GENESIS, txs[..|txs| - 1]), txs[|txs| - 1];
    if tx.call.Control? && Check(s, tx).Pass? then Some(tx.call.op) else None
  }

  predicate Clears(op: ControlOp) {
    op.InitializePause? || op.CancelPauseRequest? || op.Unpause?
  }

  /** Who asked for the pause since it was last configured, cancelled or lifted, in order. */
  ghost function SignerStory(txs: seq<Tx>): seq<Address> {
    if txs == [] then [] else
      var earlier, last := SignerStory(txs[..|txs| - 1]), LastControl(txs);
      if last.Some? && Clears(last.value) then []
      else if last.Some? && last.value.RequestPause? then earlier + [last.value.requester]
      else earlier
  }

  /** When the first of them asked. */
  ghost function ClockStory(txs: seq<Tx>): int {
    if txs == [] then 0 else
      var before, last := txs[..|txs| - 1], LastControl(txs);
      if last.Some? && Clears(last.value) then 0
      else if last.Some? && last.value.RequestPause? && SignerStory(before) == [] then Run(GENESIS, before).now
      else ClockStory(before)
  }

  /** Delay, signatures required and grace period, as last given. */
  ghost function DelayStory(txs: seq<Tx>): int {
    if txs == [] then 0 else
      var last := LastControl(txs);
      if last.Some? && last.value.InitializePause? then last.value.delay
      else if last.Some? && last.value.UpdatePauseConfig? && last.value.newDelay.Some? then last.value.newDelay.value
      else DelayStory(txs[..|txs| - 1])
  }

  ghost function RequiredStory(txs: seq<Tx>): int {
    if txs == [] then 0 else
      var last := LastControl(txs);
      if last.Some? && last.value.InitializePause? then last.value.required
      else if last.Some? && last.value.UpdatePauseConfig? && last.value.newRequired.Some?
      then last.value.newRequired.value
      else RequiredStory(txs[..|txs| - 1])
  }

  ghost function GraceStory(txs: seq<Tx>): int {
    if txs == [] then 0 else
      var last := LastControl(txs);
      if last.Some? && last.value.InitializePause? then last.value.grace
      else if last.Some? && last.value.UpdatePauseConfig? && last.value.newGrace.Some? then last.value.newGrace.value
      else GraceStory(txs[..|txs| - 1])
  }

  /** Whether a request has brought the signers to the number required then, since the pause was last cleared. */
  ghost function MarkStory(txs: seq<Tx>): bool {
    if txs == [] then false else
      var before, last := txs[..|txs| - 1], LastControl(txs);
      if last.Some? && Clears(last.value) then false
      else if last.Some? && last.value.RequestPause? && |SignerStory(txs)| >= RequiredStory(before) then true
      else MarkStory(before)
  }

  /** When a request last found enough signers, since the pause was last configured. */
  ghost function MarkTimeStory(txs: seq<Tx>): int {
    if txs == [] then 0 else
      var before, last := txs[..|txs| - 1], LastControl(txs);
      if last.Some? && last.value.InitializePause? then 0
      else if last.Some? && last.value.RequestPause? && |SignerStory(txs)| >= RequiredStory(before)
      then Run(GENESIS, before).now
      else MarkTimeStory(before)
  }

  /** The last reason given since the pause was last cleared. */
  ghost function ReasonStory(txs: seq<Tx>): Option<Symbol> {
    if txs == [] then None else
      var before, last := txs[..|txs| - 1], LastControl(txs);
      if last.Some? && Clears(last.value) then None
      else if last.Some? && last.value.RequestPause? && last.value.reason.Some? then last.value.reason
      else ReasonStory(before)
  }

  /** Some call has configured the pause. */
  ghost predicate Configured(txs: seq<Tx>) {
    txs != [] &&
    (Configured(txs[..|txs| - 1]) || (LastControl(txs).Some? && LastControl(txs).value.InitializePause?))
  }

  /** The pause is there when configured, and every part of it is what the accepted calls say. */
  ghost predicate PauseTold(txs: seq<Tx>, pause: Option<PauseState>) {
    && (pause.Some? <==> Configured(txs))
    && (pause.None? ==> SignerStory(txs) == [] && !MarkStory(txs) && ReasonStory(txs) == None)
    && (pause.Some? ==>
          var p := pause.value;
          && p.signers == SignerStory(txs) && p.isPaused == MarkStory(txs)
          && p.pauseTimestamp == ClockStory(txs) && p.lastPauseTime == MarkTimeStory(txs)
          && p.timelockDelay == DelayStory(txs) && p.requiredSignatures == RequiredStory(txs)
          && p.gracePeriod == GraceStory(txs) && p.reason == ReasonStory(txs))
  }

  ghost predicate PauseMoved(s: State, s': State, op: ControlOp) {
    match op
    case Initialize(_) => s'.pause == s.pause
    case UpdateConfig(_, _) => s'.pause == s.pause
    case InitializePause(_, delay, required, grace) =>
      s'.pause == Some(PauseState(false, 0, delay, [], required, 0, grace, None))
    case RequestPause(requester, reason) =>
      && s.pause.Some? && s'.pause.Some?
      && var p, p' := s.pause.value, s'.pause.value;
         && p'.signers == p.signers + [requester]
         && (p'.isPaused <==> p.isPaused || |p'.signers| >= p.requiredSignatures)
         && p'.pauseTimestamp == (if p.signers == [] then s.now else p.pauseTimestamp)
         && p'.lastPauseTime == (if |p'.signers| >= p.requiredSignatures then s.now else p.lastPauseTime)
         && p'.reason == (if reason.Some? then reason else p.reason)
         && SameSettings(p, p')
    case UpdatePauseConfig(_, delay, required, grace) =>
      && s.pause.Some? && s'.pause.Some?
      && var p, p' := s.pause.value, s'.pause.value;
         && p'.signers == p.signers && p'.isPaused == p.isPaused && p'.pauseTimestamp == p.pauseTimestamp
         && p'.lastPauseTime == p.lastPauseTime && p'.reason == p.reason
         && p'.timelockDelay == (if delay.Some? then delay.value else p.timelockDelay)
         && p'.requiredSignatures == (if required.Some? then required.value else p.requiredSignatures)
         && p'.gracePeriod == (if grace.Some? then grace.value else p.gracePeriod)
    case _ =>
      && s.pause.Some? && s'.pause.Some?
      && var p, p' := s.pause.value, s'.pause.value;
         && p'.signers == [] && !p'.isPaused && p'.pauseTimestamp == 0 && p'.reason == None
         && p'.lastPauseTime == p.lastPauseTime && SameSettings(p, p')
  }

  predicate SameSettings(p: PauseState, p': PauseState) {
    p'.timelockDelay == p.timelockDelay && p'.requiredSignatures == p.requiredSignatures
    && p'.gracePeriod == p.gracePeriod
  }

  lemma PauseAfterControl(s: State, auth: set<Address>, op: ControlOp)
    requires ControlCheck(s, auth, op).Pass?
    ensures PauseMoved(s, Next(s, Tx(auth, Control(op))), op)
  {
    assert Next(s, Tx(auth, Control(op))).pause == PauseAfter(s, op);
  }

  lemma {:induction false} PauseTellStep(txs: seq<Tx>, s: State, s': State)
    requires txs != [] && s == Run(GENESIS, txs[..|txs| - 1]) && LastControl(txs).Some?
    requires PauseTold(txs[..|txs| - 1], s.pause) && PauseMoved(s, s', LastControl(txs).value)
    ensures PauseTold(txs, s'.pause)
  {
  }

  /** In every reachable state the pause is exactly what the accepted administrative calls made it. */
  lemma {:induction false} PauseIsToldByCalls(txs: seq<Tx>)
    ensures PauseTold(txs, Run(GENESIS, txs).pause)
  {
    if txs == [] {
    } else {
      var s, tx := Run(GENESIS, txs[..|txs| - 1]), txs[|txs| - 1];
      PauseIsToldByCalls(txs[..|txs| - 1]);
      if LastControl(txs).Some? {
        PauseAfterControl(s, tx.auth, tx.call.op);
        PauseTellStep(txs, s, Next(s, tx));
      } else if tx.call.Control? {
        assert Next(s, tx) == s;
      } else {
        OnlyControlMovesPause(s, tx);
      }
    }
  }
}
