/** Whose wallet the money of the contract that pays on approval comes from and goes to. */
module InstantIncome {
  import opened Prelude
  import opened Sums
  import opened Tokens
  import opened InstantTypes
  import opened InstantSpec
  import opened InstantInvariant
  import opened InstantRuns

  /** How a transaction changes one wallet. */
  function Gain(s: State, tx: Tx, asset: Address, who: Address): int {
    Balance(Next(s, tx).tokens, asset, who) - Balance(s.tokens, asset, who)
  }

  // ----- users -----

  /** What a wallet gains, over a run, in calls on quests and submissions. */
  ghost function Income(s: State, txs: seq<Tx>, asset: Address, who: Address): int {
    if txs == [] then 0 else
      var before, tx := txs[..|txs| - 1], txs[|txs| - 1];
      Income(s, before, asset, who) + if tx.call.OnQuest? then Gain(Run(s, before), tx, asset, who) else 0
  }

  predicate PaidIn(subs: map<SubmissionKey, Submission>, q: Symbol, who: Address) {
    (q, who) in subs && subs[(q, who)].status.Paid?
  }

  /** The rewards of the quests for which the user's submission is paid. */
  ghost function EarnedIn(quests: map<Symbol, Quest>, subs: map<SubmissionKey, Submission>, asset: Address,
      who: Address): map<Symbol, int> {
    map q | q in quests && quests[q].asset == asset && PaidIn(subs, q, who) :: quests[q].reward as int
  }

  ghost function Earned(s: State, asset: Address, who: Address): map<Symbol, int> {
    EarnedIn(s.quests, s.subs, asset, who)
  }

  lemma {:induction false} EarnedKept(quests: map<Symbol, Quest>, subs: map<SubmissionKey, Submission>,
                                      quests': map<Symbol, Quest>, subs': map<SubmissionKey, Submission>,
                                      asset: Address, who: Address)
    requires forall q :: PaidIn(subs', q, who) <==> PaidIn(subs, q, who)
    requires forall q :: q in quests ==>
      q in quests' && quests'[q].asset == quests[q].asset && quests'[q].reward == quests[q].reward
    requires forall q :: PaidIn(subs, q, who) ==> q in quests
    ensures EarnedIn(quests', subs', asset, who) == EarnedIn(quests, subs, asset, who)
  {
  }

  lemma UnpaidStepKeepsEarned(s: State, tx: Tx, asset: Address, who: Address)
    requires Books(s) && forall q :: !Pays(s, tx, (q, who))
    ensures Earned(Next(s, tx), asset, who) == Earned(s, asset, who)
  {
    var s' := Next(s, tx);
    forall q ensures PaidIn(s'.subs, q, who) <==> PaidIn(s.subs, q, who) {
      PaysStep(s, tx, (q, who));
      assert IsPaid(s, (q, who)) == PaidIn(s.subs, q, who) && IsPaid(s', (q, who)) == PaidIn(s'.subs, q, who);
    }
    forall q | PaidIn(s.subs, q, who) ensures q in s.quests { assert (q, who).0 in s.quests; }
    EvolvesStep(s, tx);
    forall q | q in s.quests
      ensures q in s'.quests && s'.quests[q].asset == s.quests[q].asset && s'.quests[q].reward == s.quests[q].reward {
      assert SameTerms(s.quests[q], s'.quests[q]);
    }
    EarnedKept(s.quests, s.subs, s'.quests, s'.subs, asset, who);
  }

  /** One more submission paid, at a quest that keeps its terms. */
  lemma {:induction false} EarnedOne(quests: map<Symbol, Quest>, subs: map<SubmissionKey, Submission>, q: Symbol,
      u: Address,
                                     quest: Quest, sub: Submission, asset: Address, who: Address)
    requires q in quests && quest.asset == quests[q].asset && quest.reward == quests[q].reward
    requires (q, u) in subs && !subs[(q, u)].status.Paid? && sub.status.Paid?
    ensures Sum(EarnedIn(quests[q := quest], subs[(q, u) := sub], asset, who)) ==
      Sum(EarnedIn(quests, subs, asset, who)) + if quest.asset == asset && u == who then quest.reward else 0
  {
    var m, m' := EarnedIn(quests, subs, asset, who), EarnedIn(quests[q := quest], subs[(q, u) := sub], asset, who);
    forall p | p != q ensures (p in m <==> p in m') && (p in m ==> m[p] == m'[p]) {
      assert PaidIn(subs[(q, u) := sub], p, who) == PaidIn(subs, p, who);
    }
    SumChange(m, m', q);
  }

  lemma EarnedByApproval(s: State, auth: set<Address>, q: Symbol, u: Address, v: Address,
      asset: Address, who: Address)
    requires ApproveCheck(s, auth, q, u, v).Pass? && who.Account?
    ensures var s' := ApproveEffect(s, auth, q, u, v);
      Sum(Earned(s', asset, who)) - Sum(Earned(s, asset, who)) ==
      Balance(s'.tokens, asset, who) - Balance(s.tokens, asset, who)
  {
    var s' := ApproveEffect(s, auth, q, u, v);
    EarnedOne(s.quests, s.subs, q, u, s'.quests[q], s'.subs[(q, u)], asset, who);
  }

  lemma OtherQuestOpsMoveNothing(s: State, auth: set<Address>, op: QuestOp)
    requires QuestCheck(s, auth, op).Pass? && !op.Approve?
    ensures QuestEffect(s, auth, op).tokens == s.tokens
  {
  }

  lemma EarnedStep(s: State, tx: Tx, asset: Address, who: Address)
    requires Books(s) && who.Account?
    ensures Sum(Earned(Next(s, tx), asset, who)) ==
      Sum(Earned(s, asset, who)) + if tx.call.OnQuest? then Gain(s, tx, asset, who) else 0
  {
    if Check(s, tx).Pass? {
      if tx.call.OnQuest? && tx.call.quest.Approve? {
        var op := tx.call.quest;
        EarnedByApproval(s, tx.auth, op.quest, op.submitter, op.verifier, asset, who);
      } else {
        UnpaidStepKeepsEarned(s, tx, asset, who);
        if tx.call.OnQuest? { OtherQuestOpsMoveNothing(s, tx.auth, tx.call.quest); }
      }
    }
  }

  /** Over any run a user's wallet gains exactly the rewards of the quests whose submission of theirs ends up paid. */
  lemma {:induction false} IncomeIsEarned(txs: seq<Tx>, asset: Address, who: Address)
    requires who.Account?
    ensures Income(GENESIS, txs, asset, who) == Sum(Earned(Run(GENESIS, txs), asset, who))
  {
    if txs == [] {
      assert Earned(GENESIS, asset, who) == map[];
    } else {
      var before := txs[..|txs| - 1];
      IncomeIsEarned(before, asset, who);
      InvGenesis();
      InvRun(GENESIS, before);
      EarnedStep(Run(GENESIS, before), txs[|txs| - 1], asset, who);
    }
  }

  // ----- creators -----

  /** What a wallet pays, net of what it gets back, over a run in calls on escrows. */
  ghost function Outlay(s: State, txs: seq<Tx>, asset: Address, who: Address): int {
    if txs == [] then 0 else
      var before, tx := txs[..|txs| - 1], txs[|txs| - 1];
      Outlay(s, before, asset, who) - if tx.call.OnEscrow? then Gain(Run(s, before), tx, asset, who) else 0
  }

  function Worth(quests: map<Symbol, Quest>, escrow: map<Symbol, Units>, q: Symbol): int
    requires q in quests
  {
    (if q in escrow then escrow[q] else 0) + quests[q].reward * quests[q].totalClaims
  }

  /** For each quest of the creator: what its escrow holds and what it has paid in rewards. */
  ghost function StakeIn(quests: map<Symbol, Quest>, escrow: map<Symbol, Units>, asset: Address,
      who: Address): map<Symbol, int> {
    map q | q in quests && quests[q].asset == asset && quests[q].creator == who :: Worth(quests, escrow, q)
  }

  ghost function Stake(s: State, asset: Address, who: Address): map<Symbol, int> {
    StakeIn(s.quests, s.escrow, asset, who)
  }

  lemma {:induction false} StakeOneEscrow(quests: map<Symbol, Quest>, escrow: map<Symbol, Units>, q: Symbol,
      units: Units, asset: Address, who: Address)
    requires q in quests
    ensures Sum(StakeIn(quests, escrow[q := units], asset, who)) == Sum(StakeIn(quests, escrow, asset, who)) +
      if quests[q].asset == asset && quests[q].creator == who then units - (if q in escrow then escrow[q] else 0) else 0
  {
    SumChange(StakeIn(quests, escrow, asset, who), StakeIn(quests, escrow[q := units], asset, who), q);
  }

  lemma StakeByEscrow(s: State, auth: set<Address>, op: EscrowOp, asset: Address, who: Address)
    requires EscrowCheck(s, auth, op).Pass? && who.Account?
    ensures var s' := EscrowEffect(s, auth, op);
      Sum(Stake(s', asset, who)) - Sum(Stake(s, asset, who)) ==
      Balance(s.tokens, asset, who) - Balance(s'.tokens, asset, who)
  {
    StakeOneEscrow(s.quests, s.escrow, op.quest, EscrowEffect(s, auth, op).escrow[op.quest], asset, who);
  }

  lemma StakeKept(s: State, s': State, asset: Address, who: Address)
    requires s'.quests.Keys == s.quests.Keys
    requires forall q :: q in s.quests ==>
      s'.quests[q].asset == s.quests[q].asset && s'.quests[q].creator == s.quests[q].creator
    requires forall q :: q in s.quests ==> Worth(s'.quests, s'.escrow, q) == Worth(s.quests, s.escrow, q)
    ensures Stake(s', asset, who) == Stake(s, asset, who)
  {
  }

  /** A new quest has no escrow and no claims. */
  lemma {:induction false} StakeOfNew(quests: map<Symbol, Quest>, escrow: map<Symbol, Units>, q: Symbol,
      quest: Quest, asset: Address, who: Address)
    requires q !in quests && q !in escrow && quest.totalClaims == 0
    ensures Sum(StakeIn(quests[q := quest], escrow, asset, who)) == Sum(StakeIn(quests, escrow, asset, who))
  {
    SumChange(StakeIn(quests, escrow, asset, who), StakeIn(quests[q := quest], escrow, asset, who), q);
  }

  lemma StakeByQuestOp(s: State, auth: set<Address>, op: QuestOp, asset: Address, who: Address)
    requires Books(s) && QuestCheck(s, auth, op).Pass?
    ensures Sum(Stake(QuestEffect(s, auth, op), asset, who)) == Sum(Stake(s, asset, who))
  {
    var s' := QuestEffect(s, auth, op);
    if op.Register? {
      StakeOfNew(s.quests, s.escrow, op.id, s'.quests[op.id], asset, who);
    } else {
      QuestOpsKeepQuests(s, auth, op);
      QuestOpsKeepWorth(s, auth, op);
      StakeKept(s, s', asset, who);
    }
  }

  /** An approval moves a reward from held to paid; the other calls touch neither. */
  lemma QuestOpsKeepWorth(s: State, auth: set<Address>, op: QuestOp)
    requires QuestCheck(s, auth, op).Pass? && !op.Register?
    ensures var s' := QuestEffect(s, auth, op);
      forall q :: q in s.quests && q in s'.quests ==>
        && s'.quests[q].asset == s.quests[q].asset && s'.quests[q].creator == s.quests[q].creator
        && Worth(s'.quests, s'.escrow, q) == Worth(s.quests, s.escrow, q)
  {
    if op.Approve? {
      ApprovalKeepsWorth(s, auth, op.quest, op.submitter, op.verifier);
    }
  }

  lemma ApprovalKeepsWorth(s: State, auth: set<Address>, q: Symbol, u: Address, v: Address)
    requires ApproveCheck(s, auth, q, u, v).Pass?
    ensures var s' := ApproveEffect(s, auth, q, u, v);
      forall p :: p in s.quests ==>
        && s'.quests[p].asset == s.quests[p].asset && s'.quests[p].creator == s.quests[p].creator
        && Worth(s'.quests, s'.escrow, p) == Worth(s.quests, s.escrow, p)
  {
    var quest := s.quests[q];
    assert quest.reward * (quest.totalClaims + 1) == quest.reward * quest.totalClaims + quest.reward;
  }

  lemma QuestOpsKeepQuests(s: State, auth: set<Address>, op: QuestOp)
    requires QuestCheck(s, auth, op).Pass? && !op.Register?
    ensures QuestEffect(s, auth, op).quests.Keys == s.quests.Keys
  {
  }

  lemma OtherCallsKeepMoney(s: State, tx: Tx)
    requires tx.call.Control? || tx.call.Outside?
    ensures Next(s, tx).quests == s.quests && Next(s, tx).escrow == s.escrow
  {
  }

  lemma StakeStep(s: State, tx: Tx, asset: Address, who: Address)
    requires Books(s) && who.Account?
    ensures Sum(Stake(Next(s, tx), asset, who)) ==
      Sum(Stake(s, asset, who)) - if tx.call.OnEscrow? then Gain(s, tx, asset, who) else 0
  {
    if Check(s, tx).Pass? {
      match tx.call
      case OnQuest(op) => StakeByQuestOp(s, tx.auth, op, asset, who);
      case OnEscrow(op) => StakeByEscrow(s, tx.auth, op, asset, who);
      case _ => OtherCallsKeepMoney(s, tx);
    }
  }

  /** Over any run a creator's wallet has paid, net of withdrawals, exactly what its quests hold and have rewarded. */
  lemma {:induction false} OutlayIsStake(txs: seq<Tx>, asset: Address, who: Address)
    requires who.Account?
    ensures Outlay(GENESIS, txs, asset, who) == Sum(Stake(Run(GENESIS, txs), asset, who))
  {
    if txs == [] {
      assert Stake(GENESIS, asset, who) == map[];
    } else {
      var before := txs[..|txs| - 1];
      OutlayIsStake(before, asset, who);
      InvGenesis();
      InvRun(GENESIS, before);
      StakeStep(Run(GENESIS, before), txs[|txs| - 1], asset, who);
    }
  }
}
