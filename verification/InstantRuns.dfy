/** Theorems over whole runs of the contract that pays on approval. */
module InstantRuns {
  import opened Prelude
  import opened Sums
  import opened Tokens
  import opened InstantTypes
  import opened InstantSpec
  import opened InstantInvariant

  // ----- solvency -----

  /** Everything donated in an asset during a run. */
  ghost function Donated(s: State, txs: seq<Tx>, asset: Address): int {
    if txs == [] then 0 else
      var before := txs[..|txs| - 1];
      Donated(s, before, asset) + Donation(Run(s, before), txs[|txs| - 1], asset)
  }

  lemma {:induction false} SurplusRun(s: State, txs: seq<Tx>, asset: Address)
    requires Inv(s)
    ensures Surplus(Run(s, txs), asset) == Surplus(s, asset) + Donated(s, txs, asset)
  {
    if txs == [] {
    } else {
      var before := txs[..|txs| - 1];
      SurplusRun(s, before, asset);
      InvRun(s, before);
      SurplusStep(Run(s, before), txs[|txs| - 1], asset);
    }
  }

  /** The contract holds exactly the donations and the escrow balances of the quests in that asset. */
  lemma {:induction false} Solvency(txs: seq<Tx>, asset: Address)
    ensures var s := Run(GENESIS, txs);
      Balance(s.tokens, asset, Contract) == Donated(GENESIS, txs, asset) + Sum(Held(s, asset))
  {
    InvGenesis();
    SurplusRun(GENESIS, txs, asset);
    assert Held(GENESIS, asset) == map[];
  }

  /**
   In a reachable state every escrow balance is backed: a payout or withdrawal out of it
   can fail only because the receiver cannot hold the amount, and a deposit the token
   contract accepts never overflows the balance.
   */
  lemma EscrowIsBacked(s: State, q: Symbol)
    requires Inv(s) && q in s.quests
    ensures EscrowOf(s, q) <= Balance(s.tokens, s.quests[q].asset, Contract)
    ensures forall to: Address, amount: int :: to.Account? && 0 <= amount <= EscrowOf(s, q) ==>
      (CanTransfer(s.tokens, s.quests[q].asset, Contract, to, amount)
       <==> Balance(s.tokens, s.quests[q].asset, to) + amount <= I128_MAX)
    ensures forall from: Address, amount: int ::
      from.Account? && CanTransfer(s.tokens, s.quests[q].asset, from, Contract, amount) ==>
      EscrowOf(s, q) + amount <= I128_MAX
  {
    var asset := s.quests[q].asset;
    SumBoundsEntry(Held(s, asset), q);
    assert 0 <= Surplus(s, asset);
  }

  /** Neither the pause nor an overflow in its timelock stops an approval. */
  predicate Unpaused(s: State) {
    s.pause.Some? && s.pause.value.isPaused ==>
      s.now < s.pause.value.pauseTimestamp + s.pause.value.timelockDelay <= U64_MAX
  }

  /**
   In every reachable state the approval of a pending submission goes through, with its payment,
   on these conditions alone: that the contract has the tokens is not among them.
   */
  lemma {:induction false} ApproveSucceedsIff(txs: seq<Tx>, auth: set<Address>, q: Symbol, u: Address, v: Address)
    requires var s := Run(GENESIS, txs); (q, u) in s.subs && s.subs[(q, u)].status.Pending?
    ensures var s := Run(GENESIS, txs);
      q in s.quests &&
      var quest := s.quests[q];
      Check(s, Tx(auth, OnQuest(Approve(q, u, v)))).Pass? <==>
        && Unpaused(s) && Signed(auth, v) && quest.verifier == v && !Full(quest)
        && quest.reward <= EscrowOf(s, q)
        && Balance(s.tokens, quest.asset, u) + quest.reward <= I128_MAX && StatsHaveRoom(s, u)
  {
    var s := Run(GENESIS, txs);
    InvGenesis();
    InvRun(GENESIS, txs);
    assert (q, u).0 in s.quests && (q, u).1.Account?;
    EscrowIsBacked(s, q);
  }

  // ----- the ledger of one quest -----

  function DepositedBy(s: State, tx: Tx, q: Symbol): int {
    if tx.call.OnEscrow? && tx.call.escrow.Deposit? && tx.call.escrow.quest == q
       && EscrowCheck(s, tx.auth, tx.call.escrow).Pass?
    then tx.call.escrow.amount else 0
  }

  function WithdrawnBy(s: State, tx: Tx, q: Symbol): int {
    if tx.call.OnEscrow? && !tx.call.escrow.Deposit? && tx.call.escrow.quest == q
       && EscrowCheck(s, tx.auth, tx.call.escrow).Pass?
    then EscrowOf(s, q) else 0
  }

  ghost function Deposited(s: State, txs: seq<Tx>, q: Symbol): int {
    if txs == [] then 0 else
      var before := txs[..|txs| - 1];
      Deposited(s, before, q) + DepositedBy(Run(s, before), txs[|txs| - 1], q)
  }

  ghost function Withdrawn(s: State, txs: seq<Tx>, q: Symbol): int {
    if txs == [] then 0 else
      var before := txs[..|txs| - 1];
      Withdrawn(s, before, q) + WithdrawnBy(Run(s, before), txs[|txs| - 1], q)
  }

  /** What the quest has paid in rewards. */
  function Rewarded(s: State, q: Symbol): int {
    if q in s.quests then s.quests[q].reward * s.quests[q].totalClaims else 0
  }

  /** One claim more is one reward more paid. */
  lemma RewardOfClaim(quest: Quest)
    requires !Full(quest)
    ensures Claimed(quest).reward * Claimed(quest).totalClaims == quest.reward * quest.totalClaims + quest.reward
  {
    assert quest.reward * (quest.totalClaims + 1) == quest.reward * quest.totalClaims + quest.reward;
  }

  lemma RewardedApprove(s: State, auth: set<Address>, q: Symbol, u: Address, v: Address, p: Symbol)
    requires ApproveCheck(s, auth, q, u, v).Pass?
    ensures var s' := ApproveEffect(s, auth, q, u, v);
      EscrowOf(s', p) + Rewarded(s', p) == EscrowOf(s, p) + Rewarded(s, p)
  {
    var s' := ApproveEffect(s, auth, q, u, v);
    RewardOfClaim(s.quests[q]);
    assert s'.quests == s.quests[q := Claimed(s.quests[q])];
    assert s'.escrow == s.escrow[q := EscrowOf(s, q) - s.quests[q].reward];
  }

  lemma LedgerQuestStep(s: State, auth: set<Address>, op: QuestOp, p: Symbol)
    requires Books(s) && QuestCheck(s, auth, op).Pass?
    ensures var s' := QuestEffect(s, auth, op);
      EscrowOf(s', p) + Rewarded(s', p) == EscrowOf(s, p) + Rewarded(s, p)
  {
    if op.Approve? {
      RewardedApprove(s, auth, op.quest, op.submitter, op.verifier, p);
    } else {
      OtherQuestOpsPayNothing(s, auth, op, p);
    }
  }

  lemma OtherQuestOpsPayNothing(s: State, auth: set<Address>, op: QuestOp, p: Symbol)
    requires Books(s) && QuestCheck(s, auth, op).Pass? && !op.Approve?
    ensures QuestEffect(s, auth, op).escrow == s.escrow && Rewarded(QuestEffect(s, auth, op), p) == Rewarded(s, p)
  {
    if op.Register? && op.id == p { assert QuestEffect(s, auth, op).quests[p].totalClaims == 0; }
  }

  lemma LedgerEscrowStep(s: State, auth: set<Address>, op: EscrowOp, q: Symbol)
    requires Books(s) && EscrowCheck(s, auth, op).Pass?
    ensures var s' := EscrowEffect(s, auth, op);
      EscrowOf(s', q) + Rewarded(s', q) ==
      EscrowOf(s, q) + Rewarded(s, q)
      + DepositedBy(s, Tx(auth, OnEscrow(op)), q) - WithdrawnBy(s, Tx(auth, OnEscrow(op)), q)
  {
  }

  lemma LedgerQuestNext(s: State, auth: set<Address>, op: QuestOp, q: Symbol)
    requires Books(s)
    ensures var s' := Next(s, Tx(auth, OnQuest(op)));
      EscrowOf(s', q) + Rewarded(s', q) == EscrowOf(s, q) + Rewarded(s, q)
  {
    if QuestCheck(s, auth, op).Pass? { LedgerQuestStep(s, auth, op, q); }
  }

  lemma LedgerEscrowNext(s: State, auth: set<Address>, op: EscrowOp, q: Symbol)
    requires Books(s)
    ensures var tx := Tx(auth, OnEscrow(op));
      EscrowOf(Next(s, tx), q) + Rewarded(Next(s, tx), q) ==
      EscrowOf(s, q) + Rewarded(s, q) + DepositedBy(s, tx, q) - WithdrawnBy(s, tx, q)
  {
    if EscrowCheck(s, auth, op).Pass? { LedgerEscrowStep(s, auth, op, q); }
  }

  lemma LedgerStep(s: State, tx: Tx, q: Symbol)
    requires Books(s)
    ensures EscrowOf(Next(s, tx), q) + Rewarded(Next(s, tx), q) ==
      EscrowOf(s, q) + Rewarded(s, q) + DepositedBy(s, tx, q) - WithdrawnBy(s, tx, q)
  {
    match tx.call
    case OnQuest(op) => LedgerQuestNext(s, tx.auth, op, q);
    case OnEscrow(op) => LedgerEscrowNext(s, tx.auth, op, q);
    case Control(op) => ControlKeeps(s, tx.auth, op);
    case Outside(event) => OutsideKeeps(s, tx.auth, event);
  }

  /** Deposits = what is left in escrow + rewards of all claims + withdrawals, for every quest and run. */
  lemma {:induction false} QuestLedger(txs: seq<Tx>, q: Symbol)
    ensures var s := Run(GENESIS, txs);
      Deposited(GENESIS, txs, q) == EscrowOf(s, q) + Rewarded(s, q) + Withdrawn(GENESIS, txs, q)
  {
    if txs == [] {
    } else {
      var before := txs[..|txs| - 1];
      QuestLedger(before, q);
      InvGenesis();
      InvRun(GENESIS, before);
      LedgerStep(Run(GENESIS, before), txs[|txs| - 1], q);
    }
  }

  // ----- what never changes back -----

  /** The terms a quest was registered with. */
  ghost predicate SameTerms(a: Quest, b: Quest) {
    b == a.(status := b.status, totalClaims := b.totalClaims)
  }

  /** A terminal status stays, except that a cancelled quest may turn out expired. */
  predicate StatusEvolves(from: QuestStatus, to: QuestStatus) {
    Terminal(from) ==> to == from || (from.Cancelled? && to.Expired?)
  }

  ghost predicate QuestsEvolve(s: State, s': State) {
    forall q :: q in s.quests ==>
      && q in s'.quests && SameTerms(s.quests[q], s'.quests[q])
      && s.quests[q].totalClaims <= s'.quests[q].totalClaims
      && StatusEvolves(s.quests[q].status, s'.quests[q].status)
  }

  /** A paid or rejected submission is final; any other keeps its proof and time. */
  ghost predicate SubsEvolve(s: State, s': State) {
    forall k :: k in s.subs ==>
      && k in s'.subs && s'.subs[k] == s.subs[k].(status := s'.subs[k].status)
      && (!s.subs[k].status.Pending? ==> s'.subs[k] == s.subs[k])
  }

  ghost predicate StatsEvolve(s: State, s': State) {
    forall u :: u in s.stats ==>
      u in s'.stats && s.stats[u].totalXp <= s'.stats[u].totalXp && s.stats[u].level <= s'.stats[u].level
  }

  ghost predicate Evolves(s: State, s': State) {
    QuestsEvolve(s, s') && SubsEvolve(s, s') && StatsEvolve(s, s') && s.now <= s'.now
  }

  lemma QuestsEvolveBy(s: State, s': State, q: Symbol, quest: Quest)
    requires s'.quests == s.quests[q := quest]
    requires q in s.quests ==>
      && SameTerms(s.quests[q], quest) && s.quests[q].totalClaims <= quest.totalClaims
      && StatusEvolves(s.quests[q].status, quest.status)
    ensures QuestsEvolve(s, s')
  {
  }

  lemma SubsEvolveBy(s: State, s': State, k: SubmissionKey, sub: Submission)
    requires s'.subs == s.subs[k := sub]
    requires k in s.subs ==> s.subs[k].status.Pending? && sub == s.subs[k].(status := sub.status)
    ensures SubsEvolve(s, s')
  {
  }

  lemma StatsEvolveBy(s: State, s': State, u: Address, stats: UserStats)
    requires s'.stats == s.stats[u := stats]
    requires u in s.stats ==> s.stats[u].totalXp <= stats.totalXp && s.stats[u].level <= stats.level
    ensures StatsEvolve(s, s')
  {
  }

  lemma EvolvesTransitive(a: State, b: State, c: State)
    requires Evolves(a, b) && Evolves(b, c)
    ensures Evolves(a, c)
  {
  }

  lemma EvolvesStatus(s: State, q: Symbol, status: QuestStatus)
    requires q in s.quests && StatusEvolves(s.quests[q].status, status)
    ensures Evolves(s, WithStatus(s, q, status))
  {
    QuestsEvolveBy(s, WithStatus(s, q, status), q, s.quests[q].(status := status));
  }

  lemma EvolvesApprove(s: State, auth: set<Address>, q: Symbol, u: Address, v: Address)
    requires Books(s) && ApproveCheck(s, auth, q, u, v).Pass?
    ensures Evolves(s, ApproveEffect(s, auth, q, u, v))
  {
    var s' := ApproveEffect(s, auth, q, u, v);
    QuestsEvolveBy(s, s', q, s'.quests[q]);
    SubsEvolveBy(s, s', (q, u), s'.subs[(q, u)]);
    StatsEvolveBy(s, s', u, s'.stats[u]);
  }

  lemma EvolvesSubmission(s: State, k: SubmissionKey, sub: Submission)
    requires k in s.subs ==> s.subs[k].status.Pending? && sub == s.subs[k].(status := sub.status)
    ensures Evolves(s, s.(subs := s.subs[k := sub]))
  {
    SubsEvolveBy(s, s.(subs := s.subs[k := sub]), k, sub);
  }

  lemma EvolvesRegister(s: State, op: QuestOp)
    requires op.Register? && 0 <= op.reward && op.id !in s.quests
    ensures Evolves(s, RegisterEffect(s, op))
  {
  }

  lemma EvolvesBadge(s: State, user: Address, badge: Symbol)
    requires user in s.stats
    ensures Evolves(s, BadgeEffect(s, user, badge))
  {
  }

  lemma EvolvesQuestStep(s: State, auth: set<Address>, op: QuestOp)
    requires Books(s) && QuestCheck(s, auth, op).Pass?
    ensures Evolves(s, QuestEffect(s, auth, op))
  {
    match op
    case Register(_, _, _, _, _, _, _) => EvolvesRegister(s, op);
    case UpdateStatus(q, _, status) => EvolvesStatus(s, q, status);
    case Expire(q, _) => EvolvesStatus(s, q, Expired);
    case Cancel(q, _) => EvolvesStatus(s, q, Cancelled);
    case Submit(q, u, proof) => EvolvesSubmission(s, (q, u), Submission(q, u, proof, Pending, s.now));
    case Reject(q, u, _) => EvolvesSubmission(s, (q, u), s.subs[(q, u)].(status := Rejected));
    case GrantBadge(user, badge, _) => EvolvesBadge(s, user, badge);
    case Approve(q, u, v) => EvolvesApprove(s, auth, q, u, v);
  }

  lemma EvolvesFrame(s: State, s': State)
    requires s'.quests == s.quests && s'.subs == s.subs && s'.stats == s.stats && s.now <= s'.now
    ensures Evolves(s, s')
  {
  }

  lemma EvolvesQuestNext(s: State, auth: set<Address>, op: QuestOp)
    requires Books(s)
    ensures Evolves(s, Next(s, Tx(auth, OnQuest(op))))
  {
    if QuestCheck(s, auth, op).Pass? { EvolvesQuestStep(s, auth, op); } else { EvolvesFrame(s, s); }
  }

  lemma EscrowKeeps(s: State, auth: set<Address>, op: EscrowOp)
    ensures var s' := Next(s, Tx(auth, OnEscrow(op)));
      s' == s.(tokens := s'.tokens, escrow := s'.escrow)
  {
  }

  lemma EvolvesStep(s: State, tx: Tx)
    requires Books(s)
    ensures Evolves(s, Next(s, tx))
  {
    match tx.call
    case OnQuest(op) => EvolvesQuestNext(s, tx.auth, op);
    case OnEscrow(op) =>
      EscrowKeeps(s, tx.auth, op);
      EvolvesFrame(s, Next(s, tx));
    case Control(op) =>
      ControlKeeps(s, tx.auth, op);
      EvolvesFrame(s, Next(s, tx));
    case Outside(event) =>
      OutsideKeeps(s, tx.auth, event);
      EvolvesFrame(s, Next(s, tx));
  }

  /**
   Along every run terms are fixed, a terminal status stays but for cancelled becoming
   expired, decided submissions stay and reputation never falls.
   */
  lemma {:induction false} EvolvesRun(s: State, txs: seq<Tx>)
    requires Inv(s)
    ensures Evolves(s, Run(s, txs))
  {
    if txs == [] {
      EvolvesFrame(s, s);
    } else {
      EvolvesRun(s, txs[..|txs| - 1]);
      InvRun(s, txs[..|txs| - 1]);
      EvolvesStep(Run(s, txs[..|txs| - 1]), txs[|txs| - 1]);
      EvolvesTransitive(s, Run(s, txs[..|txs| - 1]), Run(s, txs));
    }
  }

  // ----- paid once -----

  predicate Pays(s: State, tx: Tx, k: SubmissionKey) {
    && tx.call.OnQuest? && tx.call.quest.Approve?
    && (tx.call.quest.quest, tx.call.quest.submitter) == k
    && QuestCheck(s, tx.auth, tx.call.quest).Pass?
  }

  /** How often a run pays a user for a quest. */
  ghost function Payouts(s: State, txs: seq<Tx>, k: SubmissionKey): nat {
    if txs == [] then 0 else
      var before := txs[..|txs| - 1];
      Payouts(s, before, k) + if Pays(Run(s, before), txs[|txs| - 1], k) then 1 else 0
  }

  ghost predicate IsPaid(s: State, k: SubmissionKey) {
    k in s.subs && s.subs[k].status.Paid?
  }

  lemma PaysApprove(s: State, auth: set<Address>, q: Symbol, u: Address, v: Address,
      k: SubmissionKey)
    requires ApproveCheck(s, auth, q, u, v).Pass?
    ensures IsPaid(ApproveEffect(s, auth, q, u, v), k) <==> IsPaid(s, k) || k == (q, u)
    ensures !IsPaid(s, (q, u))
  {
  }

  lemma PaysQuestStep(s: State, auth: set<Address>, op: QuestOp, k: SubmissionKey)
    requires Books(s) && QuestCheck(s, auth, op).Pass?
    ensures IsPaid(QuestEffect(s, auth, op), k) <==> IsPaid(s, k) || Pays(s, Tx(auth, OnQuest(op)), k)
    ensures Pays(s, Tx(auth, OnQuest(op)), k) ==> !IsPaid(s, k)
  {
    if op.Approve? {
      PaysApprove(s, auth, op.quest, op.submitter, op.verifier, k);
    } else if op.Submit? || op.Reject? {
      assert !IsPaid(s, (op.quest, op.submitter));
    } else {
      assert QuestEffect(s, auth, op).subs == s.subs;
    }
  }

  lemma PaysStep(s: State, tx: Tx, k: SubmissionKey)
    requires Books(s)
    ensures IsPaid(Next(s, tx), k) <==> IsPaid(s, k) || Pays(s, tx, k)
    ensures Pays(s, tx, k) ==> !IsPaid(s, k)
  {
    if Check(s, tx).Pass? {
      match tx.call
      case OnQuest(op) => PaysQuestStep(s, tx.auth, op, k);
      case OnEscrow(op) => assert EscrowEffect(s, tx.auth, op).subs == s.subs;
      case _ =>
    }
  }

  /** Over any run a user is paid for a quest at most once, and exactly when the submission ends up paid. */
  lemma {:induction false} PaidOnce(txs: seq<Tx>, k: SubmissionKey)
    ensures Payouts(GENESIS, txs, k) == if IsPaid(Run(GENESIS, txs), k) then 1 else 0
  {
    if txs == [] {
    } else {
      var before := txs[..|txs| - 1];
      PaidOnce(before, k);
      InvGenesis();
      InvRun(GENESIS, before);
      PaysStep(Run(GENESIS, before), txs[|txs| - 1], k);
    }
  }

  /** In every reachable state a quest has exactly `totalClaims` paid submissions, within its limit, no approved one. */
  lemma {:induction false} ClaimsArePaidSubmissions(txs: seq<Tx>, q: Symbol)
    requires q in Run(GENESIS, txs).quests
    ensures var s := Run(GENESIS, txs);
      && s.quests[q].totalClaims == |PaidKeys(s.subs, q)| <= s.quests[q].maxParticipants
      && forall k :: k in s.subs ==> !s.subs[k].status.Approved?
  {
    InvGenesis();
    InvRun(GENESIS, txs);
  }

  /** Claims counted over quests equal completions counted over users; experience and level follow from them. */
  lemma {:induction false} ReputationMatchesClaims(txs: seq<Tx>)
    ensures var s := Run(GENESIS, txs);
      && Sum(ClaimsByQuest(s)) == Sum(CompletedByUser(s))
      && forall u :: u in s.stats ==>
        && s.stats[u].totalXp == 100 * s.stats[u].questsCompleted
        && s.stats[u].level == s.stats[u].questsCompleted + 1
  {
    InvGenesis();
    InvRun(GENESIS, txs);
  }
}
