/** What every transaction of the contract that pays on approval keeps. */
module InstantInvariant {
  import opened Prelude
  import opened Sums
  import opened Tokens
  import opened InstantTypes
  import opened InstantSpec

  // ----- the invariant -----

  /** The submissions of a quest that have been paid. */
  ghost function PaidKeys(subs: map<SubmissionKey, Submission>, q: Symbol): set<SubmissionKey> {
    set k | k in subs && k.0 == q && subs[k].status.Paid?
  }

  ghost predicate QuestsOk(s: State) {
    forall q :: q in s.quests ==>
      var quest := s.quests[q];
      && quest.id == q && quest.creator.Account? && 0 < quest.reward
      && quest.totalClaims <= quest.maxParticipants
      && quest.totalClaims == |PaidKeys(s.subs, q)|
  }

  ghost predicate SubsOk(s: State) {
    forall k :: k in s.subs ==>
      && k.0 in s.quests && k.1.Account?
      && s.subs[k].quest == k.0 && s.subs[k].submitter == k.1
      && !s.subs[k].status.Approved?
  }

  ghost predicate EscrowOk(s: State) {
    s.escrow.Keys <= s.quests.Keys
  }

  ghost predicate StatsOk(s: State) {
    forall u :: u in s.stats ==>
      && s.stats[u].totalXp == XP_PER_QUEST * s.stats[u].questsCompleted
      && s.stats[u].level == LevelOf(s.stats[u].totalXp)
  }

  ghost function ClaimsByQuest(s: State): map<Symbol, int> {
    map q | q in s.quests :: s.quests[q].totalClaims
  }

  ghost function CompletedByUser(s: State): map<Address, int> {
    map u | u in s.stats :: s.stats[u].questsCompleted
  }

  /** Both sides count the same approvals, once by quest and once by user. */
  ghost predicate CountsAgree(s: State) {
    Sum(ClaimsByQuest(s)) == Sum(CompletedByUser(s))
  }

  /** The escrow balances of all quests that pay in one asset. */
  ghost function HeldIn(quests: map<Symbol, Quest>, escrow: map<Symbol, Units>, asset: Address): map<Symbol, int> {
    map q | q in quests && quests[q].asset == asset :: if q in escrow then escrow[q] as int else 0
  }

  ghost function Held(s: State, asset: Address): map<Symbol, int> {
    HeldIn(s.quests, s.escrow, asset)
  }

  /** What the contract holds of an asset beyond all escrow balances in it. */
  ghost function Surplus(s: State, asset: Address): int {
    Balance(s.tokens, asset, Contract) - Sum(Held(s, asset))
  }

  ghost predicate Solvent(s: State) {
    forall asset :: 0 <= Surplus(s, asset)
  }

  ghost predicate Books(s: State) {
    QuestsOk(s) && SubsOk(s) && EscrowOk(s) && StatsOk(s) && CountsAgree(s)
  }

  ghost predicate Inv(s: State) {
    Books(s) && Solvent(s)
  }

  // ----- quests, submissions and reputation -----

  lemma {:induction false} PaidKeysOfUnpaid(subs: map<SubmissionKey, Submission>, k: SubmissionKey,
      sub: Submission, q: Symbol)
    requires !sub.status.Paid?
    requires k in subs ==> !subs[k].status.Paid?
    ensures PaidKeys(subs[k := sub], q) == PaidKeys(subs, q)
  {
  }

  lemma {:induction false} PaidKeysOfPaid(subs: map<SubmissionKey, Submission>, k: SubmissionKey, sub: Submission,
      q: Symbol)
    requires sub.status.Paid?
    requires k in subs ==> !subs[k].status.Paid?
    ensures PaidKeys(subs[k := sub], q) == PaidKeys(subs, q) + (if k.0 == q then {k} else {})
    ensures |PaidKeys(subs[k := sub], q)| == |PaidKeys(subs, q)| + (if k.0 == q then 1 else 0)
  {
    assert PaidKeys(subs[k := sub], q) == PaidKeys(subs, q) + (if k.0 == q then {k} else {});
  }

  lemma BooksRegister(s: State, c: QuestOp)
    requires Books(s) && c.Register? && c.id !in s.quests
    requires c.creator.Account? && 0 < c.reward
    ensures Books(RegisterEffect(s, c))
  {
    assert PaidKeys(s.subs, c.id) == {};
    SumChange(ClaimsByQuest(s), ClaimsByQuest(RegisterEffect(s, c)), c.id);
  }

  lemma BooksStatus(s: State, q: Symbol, status: QuestStatus)
    requires Books(s) && q in s.quests
    ensures Books(WithStatus(s, q, status))
  {
    assert ClaimsByQuest(WithStatus(s, q, status)) == ClaimsByQuest(s);
  }

  lemma BooksUnpaid(s: State, s': State, k: SubmissionKey, sub: Submission)
    requires Books(s) && s' == s.(subs := s.subs[k := sub])
    requires k.0 in s.quests && k.1.Account? && sub.quest == k.0 && sub.submitter == k.1
    requires sub.status.Pending? || sub.status.Rejected?
    requires k in s.subs ==> !s.subs[k].status.Paid?
    ensures Books(s')
  {
    forall q { PaidKeysOfUnpaid(s.subs, k, sub, q); }
    assert ClaimsByQuest(s') == ClaimsByQuest(s);
  }

  /** An approval makes one submission paid and counts it at its quest. */
  lemma ApprovedQuests(s: State, s': State, q: Symbol, u: Address)
    requires QuestsOk(s) && q in s.quests && !Full(s.quests[q])
    requires (q, u) in s.subs && s.subs[(q, u)].status.Pending?
    requires s'.quests == s.quests[q := Claimed(s.quests[q])]
    requires s'.subs == s.subs[(q, u) := s.subs[(q, u)].(status := Paid)]
    ensures QuestsOk(s')
  {
    forall p | p in s'.quests
      ensures s'.quests[p].totalClaims == |PaidKeys(s'.subs, p)|
    {
      PaidKeysOfPaid(s.subs, (q, u), s'.subs[(q, u)], p);
    }
  }

  lemma ApprovedCounts(s: State, s': State, q: Symbol, u: Address)
    requires CountsAgree(s) && q in s.quests && !Full(s.quests[q]) && StatsHaveRoom(s, u)
    requires s'.quests == s.quests[q := Claimed(s.quests[q])]
    requires s'.stats == s.stats[u := Awarded(StatsOf(s, u))]
    ensures CountsAgree(s')
  {
    SumChange(ClaimsByQuest(s), ClaimsByQuest(s'), q);
    SumChange(CompletedByUser(s), CompletedByUser(s'), u);
  }

  lemma ApprovedSubs(s: State, s': State, q: Symbol, u: Address)
    requires SubsOk(s) && q in s.quests && (q, u) in s.subs
    requires s'.quests.Keys == s.quests.Keys
    requires s'.subs == s.subs[(q, u) := s.subs[(q, u)].(status := Paid)]
    ensures SubsOk(s')
  {
  }

  lemma ApprovedStats(s: State, s': State, u: Address)
    requires StatsOk(s) && StatsHaveRoom(s, u)
    requires s'.stats == s.stats[u := Awarded(StatsOf(s, u))]
    ensures StatsOk(s')
  {
  }

  lemma BooksApprove(s: State, auth: set<Address>, q: Symbol, u: Address, v: Address)
    requires Books(s) && ApproveCheck(s, auth, q, u, v).Pass?
    ensures Books(ApproveEffect(s, auth, q, u, v))
  {
    var s' := ApproveEffect(s, auth, q, u, v);
    ApprovedQuests(s, s', q, u);
    ApprovedSubs(s, s', q, u);
    ApprovedStats(s, s', u);
    ApprovedCounts(s, s', q, u);
  }

  lemma BooksBadge(s: State, user: Address, badge: Symbol)
    requires Books(s) && user in s.stats
    ensures Books(BadgeEffect(s, user, badge))
  {
    assert CompletedByUser(BadgeEffect(s, user, badge)) == CompletedByUser(s);
  }

  /** Escrow, pause, configuration and outside steps leave the books alone. */
  lemma BooksFrame(s: State, s': State)
    requires Books(s)
    requires s'.quests == s.quests && s'.subs == s.subs && s'.stats == s.stats && s'.escrow.Keys <= s.quests.Keys
    ensures Books(s')
  {
    assert ClaimsByQuest(s') == ClaimsByQuest(s);
    assert CompletedByUser(s') == CompletedByUser(s);
  }

  lemma BooksQuestStep(s: State, auth: set<Address>, op: QuestOp)
    requires Books(s) && QuestCheck(s, auth, op).Pass?
    ensures Books(QuestEffect(s, auth, op))
  {
    var s' := QuestEffect(s, auth, op);
    match op
    case Register(_, _, _, _, _, _, _) => BooksRegister(s, op);
    case UpdateStatus(q, _, status) => BooksStatus(s, q, status);
    case Expire(q, _) => BooksStatus(s, q, Expired);
    case Cancel(q, _) => BooksStatus(s, q, Cancelled);
    case Submit(q, u, _) => BooksUnpaid(s, s', (q, u), s'.subs[(q, u)]);
    case Reject(q, u, _) => BooksUnpaid(s, s', (q, u), s'.subs[(q, u)]);
    case Approve(q, u, v) => BooksApprove(s, auth, q, u, v);
    case GrantBadge(user, badge, _) => BooksBadge(s, user, badge);
  }

  lemma BooksEscrowStep(s: State, auth: set<Address>, op: EscrowOp)
    requires Books(s) && EscrowCheck(s, auth, op).Pass?
    ensures Books(EscrowEffect(s, auth, op))
  {
    BooksFrame(s, EscrowEffect(s, auth, op));
  }

  lemma BooksStep(s: State, tx: Tx)
    requires Books(s)
    ensures Books(Next(s, tx))
  {
    if Check(s, tx).Pass? {
      match tx.call
      case OnQuest(op) => BooksQuestStep(s, tx.auth, op);
      case OnEscrow(op) => BooksEscrowStep(s, tx.auth, op);
      case _ => BooksFrame(s, Effect(s, tx));
    }
  }

  // ----- money -----

  /** Tokens an outside event brings in without booking them to a quest. */
  function DonatedBy(event: OutsideEvent, asset: Address): Units {
    match event
    case Tick(_) => 0
    case Move(a, _, to, units) => if a == asset && to == Contract then units else 0
    case Issue(a, to, units) => if a == asset && to == Contract then units else 0
  }

  function Donation(s: State, tx: Tx, asset: Address): Units {
    if tx.call.Outside? && OutsideCheck(s, tx.auth, tx.call.event).Pass? then DonatedBy(tx.call.event, asset) else 0
  }

  /** One escrow balance is replaced; quests may change but not appear, vanish or change their asset. */
  lemma {:induction false} HeldMoved(quests: map<Symbol, Quest>, quests': map<Symbol, Quest>, escrow: map<Symbol,
      Units>,
      q: Symbol, units: Units, asset: Address)
    requires q in quests && quests'.Keys == quests.Keys
    requires forall p :: p in quests ==> quests'[p].asset == quests[p].asset
    ensures Sum(HeldIn(quests', escrow[q := units], asset)) == Sum(HeldIn(quests, escrow, asset)) +
      if quests[q].asset == asset then units - (if q in escrow then escrow[q] else 0) else 0
  {
    SumChange(HeldIn(quests, escrow, asset), HeldIn(quests', escrow[q := units], asset), q);
  }

  /** Neither tokens nor escrow balances move. */
  lemma SurplusFrame(s: State, s': State, asset: Address)
    requires s'.tokens == s.tokens && s'.escrow == s.escrow && s'.quests.Keys == s.quests.Keys
    requires forall p :: p in s.quests ==> s'.quests[p].asset == s.quests[p].asset
    ensures Surplus(s', asset) == Surplus(s, asset)
  {
    assert Held(s', asset) == Held(s, asset);
  }

  lemma SurplusRegister(s: State, op: QuestOp, asset: Address)
    requires Books(s) && op.Register? && 0 <= op.reward && op.id !in s.quests
    ensures Surplus(RegisterEffect(s, op), asset) == Surplus(s, asset)
  {
    SumChange(Held(s, asset), Held(RegisterEffect(s, op), asset), op.id);
  }

  /** Balance and escrow of one quest move by the same amount, and no quest appears, vanishes or changes its asset. */
  ghost predicate MovedAlike(s: State, s': State, q: Symbol, asset: Address) {
    && q in s.quests && s'.quests.Keys == s.quests.Keys && s'.escrow == s.escrow[q := EscrowOf(s', q)]
    && (forall p :: p in s.quests ==> s'.quests[p].asset == s.quests[p].asset)
    && Balance(s'.tokens, asset, Contract) == Balance(s.tokens, asset, Contract) +
         if asset == s.quests[q].asset then EscrowOf(s', q) - EscrowOf(s, q) else 0
  }

  lemma SurplusMoved(s: State, s': State, q: Symbol, asset: Address)
    requires MovedAlike(s, s', q, asset)
    ensures Surplus(s', asset) == Surplus(s, asset)
  {
    HeldMoved(s.quests, s'.quests, s.escrow, q, EscrowOf(s', q), asset);
  }

  /** The reward leaves the escrow, and the contract for another account. */
  lemma ApproveMoves(s: State, auth: set<Address>, q: Symbol, u: Address, v: Address, asset: Address)
    requires SubsOk(s) && ApproveCheck(s, auth, q, u, v).Pass?
    ensures MovedAlike(s, ApproveEffect(s, auth, q, u, v), q, asset)
  {
    assert (q, u).1.Account?;
  }

  lemma SurplusApprove(s: State, auth: set<Address>, q: Symbol, u: Address, v: Address,
      asset: Address)
    requires SubsOk(s) && ApproveCheck(s, auth, q, u, v).Pass?
    ensures Surplus(ApproveEffect(s, auth, q, u, v), asset) == Surplus(s, asset)
  {
    ApproveMoves(s, auth, q, u, v, asset);
    SurplusMoved(s, ApproveEffect(s, auth, q, u, v), q, asset);
  }

  lemma SurplusStatus(s: State, q: Symbol, status: QuestStatus, asset: Address)
    requires q in s.quests
    ensures Surplus(WithStatus(s, q, status), asset) == Surplus(s, asset)
  {
    SurplusFrame(s, WithStatus(s, q, status), asset);
  }

  lemma SurplusQuestStep(s: State, auth: set<Address>, op: QuestOp, asset: Address)
    requires Books(s) && QuestCheck(s, auth, op).Pass?
    ensures Surplus(QuestEffect(s, auth, op), asset) == Surplus(s, asset)
  {
    match op
    case Register(_, _, _, _, _, _, _) => SurplusRegister(s, op, asset);
    case Approve(q, u, v) => SurplusApprove(s, auth, q, u, v, asset);
    case UpdateStatus(q, _, status) => SurplusStatus(s, q, status, asset);
    case Expire(q, _) => SurplusStatus(s, q, Expired, asset);
    case Cancel(q, _) => SurplusStatus(s, q, Cancelled, asset);
    case _ => SurplusFrame(s, QuestEffect(s, auth, op), asset);
  }

  /** The creator pays in or takes out what is booked. */
  lemma EscrowMoves(s: State, auth: set<Address>, op: EscrowOp, asset: Address)
    requires EscrowCheck(s, auth, op).Pass?
    ensures MovedAlike(s, EscrowEffect(s, auth, op), op.quest, asset)
  {
  }

  lemma SurplusEscrowStep(s: State, auth: set<Address>, op: EscrowOp, asset: Address)
    requires EscrowCheck(s, auth, op).Pass?
    ensures Surplus(EscrowEffect(s, auth, op), asset) == Surplus(s, asset)
  {
    EscrowMoves(s, auth, op, asset);
    SurplusMoved(s, EscrowEffect(s, auth, op), op.quest, asset);
  }

  lemma SurplusOutsideStep(s: State, s': State, auth: set<Address>, event: OutsideEvent,
      asset: Address)
    requires OutsideCheck(s, auth, event).Pass?
    requires s'.quests == s.quests && s'.escrow == s.escrow && s'.tokens == TokensAfter(s, auth, event)
    ensures Surplus(s', asset) == Surplus(s, asset) + DonatedBy(event, asset)
  {
    assert Held(s', asset) == Held(s, asset);
  }

  lemma SurplusQuestNext(s: State, auth: set<Address>, op: QuestOp, asset: Address)
    requires Books(s)
    ensures Surplus(Next(s, Tx(auth, OnQuest(op))), asset) == Surplus(s, asset)
  {
    if QuestCheck(s, auth, op).Pass? { SurplusQuestStep(s, auth, op, asset); }
  }

  lemma SurplusEscrowNext(s: State, auth: set<Address>, op: EscrowOp, asset: Address)
    ensures Surplus(Next(s, Tx(auth, OnEscrow(op))), asset) == Surplus(s, asset)
  {
    if EscrowCheck(s, auth, op).Pass? { SurplusEscrowStep(s, auth, op, asset); }
  }

  /** Administration changes the administrator and the pause, nothing else. */
  lemma ControlKeeps(s: State, auth: set<Address>, op: ControlOp)
    ensures var s' := Next(s, Tx(auth, Control(op)));
      s' == s.(admin := s'.admin, pause := s'.pause)
  {
  }

  /** The outside world moves the clock forward and the tokens, nothing else. */
  lemma OutsideKeeps(s: State, auth: set<Address>, event: OutsideEvent)
    ensures var s' := Next(s, Tx(auth, Outside(event)));
      s' == s.(now := s'.now, tokens := s'.tokens) && s.now <= s'.now
  {
  }

  lemma SurplusOutsideNext(s: State, auth: set<Address>, event: OutsideEvent, asset: Address)
    ensures Surplus(Next(s, Tx(auth, Outside(event))), asset) ==
      Surplus(s, asset) + Donation(s, Tx(auth, Outside(event)), asset)
  {
    OutsideKeeps(s, auth, event);
    if OutsideCheck(s, auth, event).Pass? {
      SurplusOutsideStep(s, Next(s, Tx(auth, Outside(event))), auth, event, asset);
    }
  }

  /** Every step changes the surplus of an asset by exactly what was donated in it. */
  lemma SurplusStep(s: State, tx: Tx, asset: Address)
    requires Books(s)
    ensures Surplus(Next(s, tx), asset) == Surplus(s, asset) + Donation(s, tx, asset)
  {
    match tx.call
    case OnQuest(op) => SurplusQuestNext(s, tx.auth, op, asset);
    case OnEscrow(op) => SurplusEscrowNext(s, tx.auth, op, asset);
    case Control(op) => ControlKeeps(s, tx.auth, op);
    case Outside(event) => SurplusOutsideNext(s, tx.auth, event, asset);
  }

  lemma SolventStep(s: State, tx: Tx)
    requires Books(s) && Solvent(s)
    ensures Solvent(Next(s, tx))
  {
    forall asset ensures 0 <= Surplus(Next(s, tx), asset) { SurplusStep(s, tx, asset); }
  }

  lemma InvStep(s: State, tx: Tx)
    requires Inv(s)
    ensures Inv(Next(s, tx))
  {
    BooksStep(s, tx);
    SolventStep(s, tx);
  }

  lemma InvGenesis()
    ensures Inv(GENESIS)
  {
  }

  lemma {:induction false} InvRun(s: State, txs: seq<Tx>)
    requires Inv(s)
    ensures Inv(Run(s, txs))
  {
    if txs == [] {
    } else {
      InvRun(s, txs[..|txs| - 1]);
      InvStep(Run(s, txs[..|txs| - 1]), txs[|txs| - 1]);
    }
  }
}
