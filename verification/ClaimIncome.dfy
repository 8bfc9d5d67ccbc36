/** Whose wallet the money of the contract with a claim step comes from and goes to. */
module ClaimIncome {
  import opened Prelude
  import opened Sums
  import opened Tokens
  import opened ClaimTypes
  import opened ClaimSpec
  import opened ClaimInvariant
  import opened ClaimLedger
  import opened ClaimLifecycle

  /** How a transaction changes one wallet. */
  function Gain(s: State, tx: Tx, asset: Address, who: Address): int {
    Balance(Next(s, tx).tokens, asset, who) - Balance(s.tokens, asset, who)
  }

  // ----- users -----

  /** What a wallet gains, over a run from the start, in calls on quests and submissions. */
  ghost function Income(txs: seq<Tx>, asset: Address, who: Address): int {
    if txs == [] then 0 else
      var before, tx := txs[..|txs| - 1], txs[|txs| - 1];
      Income(before, asset, who) + if tx.call.OnQuest? then Gain(Run(GENESIS, before), tx, asset, who) else 0
  }

  ghost function EarnedIn(quests: map<Symbol, Quest>, subs: map<SubmissionKey, Submission>, count: Symbol -> int,
                          asset: Address, who: Address): map<Symbol, int> {
    map q | q in quests && (q, who) in subs && quests[q].asset == asset :: quests[q].reward * count(q)
  }

  /** For each quest the user ever submitted to: the reward, times the number of claims. */
  ghost function Earned(txs: seq<Tx>, asset: Address, who: Address): map<Symbol, int> {
    var s := Run(GENESIS, txs);
    EarnedIn(s.quests, s.subs, ClaimCounts(txs, who), asset, who)
  }

  ghost function ClaimCounts(txs: seq<Tx>, who: Address): Symbol -> int {
    q => ClaimCount(GENESIS, txs, (q, who))
  }

  /** Only the entry of quest `p` can change, by a first submission or a claim. */
  lemma {:induction false} EarnedChange(quests: map<Symbol, Quest>, subs: map<SubmissionKey, Submission>,
      count: Symbol -> int,
                                        quests': map<Symbol, Quest>, subs': map<SubmissionKey, Submission>,
                                        count': Symbol -> int,
                                        p: Symbol, asset: Address, who: Address)
    requires forall q :: q in quests ==>
      q in quests' && quests'[q].asset == quests[q].asset && quests'[q].reward == quests[q].reward
    requires forall q :: (q, who) in subs ==> q in quests && (q, who) in subs'
    requires forall q :: q != p && (q, who) in subs' ==> (q, who) in subs
    requires forall q :: q != p ==> count'(q) == count(q)
    requires (p, who) !in subs ==> count'(p) == 0
    ensures count'(p) == count(p) ==>
      Sum(EarnedIn(quests', subs', count', asset, who)) == Sum(EarnedIn(quests, subs, count, asset, who))
    ensures count'(p) == count(p) + 1 && (p, who) in subs ==>
      Sum(EarnedIn(quests', subs', count', asset, who)) ==
      Sum(EarnedIn(quests, subs, count, asset, who)) + if quests[p].asset == asset then quests[p].reward else 0
  {
    if p in quests { assert quests[p].reward * (count(p) + 1) == quests[p].reward * count(p) + quests[p].reward; }
    SumChange(EarnedIn(quests, subs, count, asset, who), EarnedIn(quests', subs', count', asset, who), p);
  }

  lemma QuestOpKeepsKeys(s: State, auth: set<Address>, op: QuestOp, k: SubmissionKey)
    requires QuestCheck(s, auth, op).Pass?
    ensures k in QuestEffect(s, auth, op).subs <==> k in s.subs || (op.Submit? && (op.quest, op.submitter) == k)
  {
    match op
    case RegisterBatch(creator, items) => RegistrationsKeepSubs(s, creator, items);
    case ApproveBatch(v, items) => ApprovalsKeepKeys(s, v, items);
    case _ =>
  }

  lemma {:induction false} ApprovalsKeepKeys(s: State, v: Address, items: seq<ApprovalInput>)
    requires ApprovalsCheck(s, v, items).Pass?
    ensures ApprovedAll(s, v, items).subs.Keys == s.subs.Keys
    decreases |items|
  {
    if items == [] {
    } else {
      ApprovalsKeepKeys(ApprovedOne(s, items[0]), v, items[1..]);
    }
  }

  predicate Submits(tx: Tx, k: SubmissionKey) {
    tx.call.OnQuest? && tx.call.quest.Submit? && (tx.call.quest.quest, tx.call.quest.submitter) == k
  }

  lemma KeysStep(s: State, tx: Tx, k: SubmissionKey)
    ensures k in s.subs ==> k in Next(s, tx).subs
    ensures k in Next(s, tx).subs ==> k in s.subs || Submits(tx, k)
    ensures Claims(s, tx, k) ==> k in s.subs
  {
    if tx.call.OnQuest? {
      if QuestCheck(s, tx.auth, tx.call.quest).Pass? { QuestOpKeepsKeys(s, tx.auth, tx.call.quest, k); }
    } else {
      OthersKeepSubs(s, tx);
    }
  }

  lemma {:induction false} NoClaimsBeforeSubmission(txs: seq<Tx>, k: SubmissionKey)
    requires k !in Run(GENESIS, txs).subs
    ensures ClaimCount(GENESIS, txs, k) == 0
  {
    if txs == [] {
    } else {
      KeysStep(Run(GENESIS, txs[..|txs| - 1]), txs[|txs| - 1], k);
      NoClaimsBeforeSubmission(txs[..|txs| - 1], k);
    }
  }

  lemma {:induction false} CountSnoc(txs: seq<Tx>, tx: Tx, who: Address, q: Symbol)
    ensures ClaimCounts(txs + [tx], who)(q) ==
      ClaimCounts(txs, who)(q) + if Claims(Run(GENESIS, txs), tx, (q, who)) then 1 else 0
  {
    assert (txs + [tx])[..|txs|] == txs;
  }

  lemma {:induction false} TermsKept(txs: seq<Tx>, tx: Tx, who: Address)
    ensures var s, s' := Run(GENESIS, txs), Run(GENESIS, txs + [tx]);
      && (forall q :: q in s.quests ==>
            q in s'.quests && s'.quests[q].asset == s.quests[q].asset && s'.quests[q].reward == s.quests[q].reward)
      && (forall q :: (q, who) in s.subs ==> q in s.quests && (q, who) in s'.subs)
  {
    InvGenesis();
    InvRun(GENESIS, txs);
    var s := Run(GENESIS, txs);
    assert (txs + [tx])[..|txs|] == txs;
    EvolvesStep(s, tx);
    forall q | (q, who) in s.subs ensures q in s.quests && (q, who) in Next(s, tx).subs {
      KeysStep(s, tx, (q, who));
      assert (q, who).0 in s.quests;
    }
  }

  /** A submission or a claim is about quest `p`. */
  predicate Concerns(tx: Tx, p: Symbol) {
    tx.call.OnQuest? && (tx.call.quest.Submit? || tx.call.quest.Claim?) ==> tx.call.quest.quest == p
  }

  lemma {:induction false} OthersUntouched(txs: seq<Tx>, tx: Tx, p: Symbol, who: Address)
    requires Concerns(tx, p)
    ensures forall q :: q != p ==> ClaimCounts(txs + [tx], who)(q) == ClaimCounts(txs, who)(q)
    ensures forall q :: q != p && (q, who) in Run(GENESIS, txs + [tx]).subs ==> (q, who) in Run(GENESIS, txs).subs
  {
    assert (txs + [tx])[..|txs|] == txs;
    forall q | q != p ensures ClaimCounts(txs + [tx], who)(q) == ClaimCounts(txs, who)(q) {
      CountSnoc(txs, tx, who, q);
    }
    forall q | q != p && (q, who) in Next(Run(GENESIS, txs), tx).subs ensures (q, who) in Run(GENESIS, txs).subs {
      KeysStep(Run(GENESIS, txs), tx, (q, who));
    }
  }

  lemma {:induction false} UnsubmittedCount(txs: seq<Tx>, tx: Tx, p: Symbol, who: Address)
    requires (p, who) !in Run(GENESIS, txs).subs
    ensures ClaimCounts(txs + [tx], who)(p) == 0
  {
    CountSnoc(txs, tx, who, p);
    KeysStep(Run(GENESIS, txs), tx, (p, who));
    NoClaimsBeforeSubmission(txs, (p, who));
  }

  /** One more transaction changes the entry of at most one quest, `p`, by the claims it adds there. */
  lemma {:induction false} EarnedSnoc(txs: seq<Tx>, tx: Tx, p: Symbol, asset: Address, who: Address)
    requires Concerns(tx, p)
    ensures ClaimCounts(txs + [tx], who)(p) == ClaimCounts(txs, who)(p) ==>
      Sum(Earned(txs + [tx], asset, who)) == Sum(Earned(txs, asset, who))
    ensures var s := Run(GENESIS, txs);
      ClaimCounts(txs + [tx], who)(p) == ClaimCounts(txs, who)(p) + 1 && (p, who) in s.subs && p in s.quests ==>
        Sum(Earned(txs + [tx], asset, who)) ==
        Sum(Earned(txs, asset, who)) + if s.quests[p].asset == asset then s.quests[p].reward else 0
  {
    var s, s' := Run(GENESIS, txs), Run(GENESIS, txs + [tx]);
    TermsKept(txs, tx, who);
    OthersUntouched(txs, tx, p, who);
    if (p, who) !in s.subs { UnsubmittedCount(txs, tx, p, who); }
    EarnedChange(s.quests, s.subs, ClaimCounts(txs, who),
                 s'.quests, s'.subs, ClaimCounts(txs + [tx], who), p, asset, who);
  }

  lemma ClaimGain(s: State, auth: set<Address>, q: Symbol, u: Address, asset: Address, who: Address)
    requires ClaimCheck(s, auth, q, u).Pass? && who.Account?
    ensures Balance(ClaimEffect(s, auth, q, u).tokens, asset, who) - Balance(s.tokens, asset, who) ==
      if who == u && asset == s.quests[q].asset then s.quests[q].reward else 0
  {
  }

  lemma QuestGain(s: State, tx: Tx, asset: Address, who: Address)
    requires tx.call.OnQuest? && who.Account?
    ensures Gain(s, tx, asset, who) ==
      if tx.call.quest.Claim? && Claims(s, tx, (tx.call.quest.quest, who))
         && s.quests[tx.call.quest.quest].asset == asset
      then s.quests[tx.call.quest.quest].reward else 0
  {
    var op := tx.call.quest;
    if Check(s, tx).Pass? {
      if op.Claim? {
        ClaimGain(s, tx.auth, op.quest, op.submitter, asset, who);
      } else {
        OtherQuestOpsKeepMoney(s, tx.auth, op);
      }
    }
  }

  lemma ClaimNeeds(s: State, tx: Tx, p: Symbol, who: Address)
    requires Claims(s, tx, (p, who))
    ensures p in s.quests && (p, who) in s.subs
  {
  }

  lemma {:induction false} NoClaimNoEarning(txs: seq<Tx>, tx: Tx, p: Symbol, asset: Address, who: Address)
    requires Concerns(tx, p) && !Claims(Run(GENESIS, txs), tx, (p, who))
    ensures Sum(Earned(txs + [tx], asset, who)) == Sum(Earned(txs, asset, who))
  {
    CountSnoc(txs, tx, who, p);
    EarnedSnoc(txs, tx, p, asset, who);
  }

  lemma {:induction false} ClaimEarns(txs: seq<Tx>, tx: Tx, p: Symbol, asset: Address, who: Address)
    requires Concerns(tx, p) && Claims(Run(GENESIS, txs), tx, (p, who)) && p in Run(GENESIS, txs).quests
    ensures var quest := Run(GENESIS, txs).quests[p];
      Sum(Earned(txs + [tx], asset, who)) ==
      Sum(Earned(txs, asset, who)) + if quest.asset == asset then quest.reward else 0
  {
    ClaimNeeds(Run(GENESIS, txs), tx, p, who);
    CountSnoc(txs, tx, who, p);
    EarnedSnoc(txs, tx, p, asset, who);
  }

  lemma {:induction false} EarnedStep(txs: seq<Tx>, tx: Tx, asset: Address, who: Address)
    requires who.Account?
    ensures Sum(Earned(txs + [tx], asset, who)) ==
      Sum(Earned(txs, asset, who)) + if tx.call.OnQuest? then Gain(Run(GENESIS, txs), tx, asset, who) else 0
  {
    var s := Run(GENESIS, txs);
    if tx.call.OnQuest? { QuestGain(s, tx, asset, who); }
    var p := if tx.call.OnQuest? && (tx.call.quest.Submit? || tx.call.quest.Claim?) then tx.call.quest.quest else "";
    if Claims(s, tx, (p, who)) {
      ClaimNeeds(s, tx, p, who);
      ClaimEarns(txs, tx, p, asset, who);
    } else {
      NoClaimNoEarning(txs, tx, p, asset, who);
    }
  }

  /** Over any run a user's wallet gains exactly each quest's reward times the number of claims by that user. */
  lemma {:induction false} IncomeIsEarned(txs: seq<Tx>, asset: Address, who: Address)
    requires who.Account?
    ensures Income(txs, asset, who) == Sum(Earned(txs, asset, who))
  {
    if txs == [] {
      assert Earned(txs, asset, who) == map[];
    } else {
      var before, tx := txs[..|txs| - 1], txs[|txs| - 1];
      IncomeIsEarned(before, asset, who);
      assert txs == before + [tx];
      EarnedStep(before, tx, asset, who);
    }
  }

  // ----- creators -----

  /** What a wallet pays, net of refunds, over a run from the start in calls on escrows. */
  ghost function Outlay(txs: seq<Tx>, asset: Address, who: Address): int {
    if txs == [] then 0 else
      var before, tx := txs[..|txs| - 1], txs[|txs| - 1];
      Outlay(before, asset, who) - if tx.call.OnEscrow? then Gain(Run(GENESIS, before), tx, asset, who) else 0
  }

  /** For each escrow of the depositor: what was deposited and not refunded. */
  ghost function Stake(escrows: map<Symbol, EscrowInfo>, asset: Address, who: Address): map<Symbol, int> {
    map q | q in escrows && escrows[q].token == asset && escrows[q].depositor == who ::
      escrows[q].deposited - escrows[q].refunded
  }

  lemma {:induction false} StakeMoved(escrows: map<Symbol, EscrowInfo>, q: Symbol, e: EscrowInfo, asset: Address,
      who: Address)
    requires q in escrows ==> escrows[q].token == e.token && escrows[q].depositor == e.depositor
    ensures Sum(Stake(escrows[q := e], asset, who)) == Sum(Stake(escrows, asset, who)) +
      if e.token == asset && e.depositor == who
      then e.deposited - e.refunded - (if q in escrows then escrows[q].deposited - escrows[q].refunded else 0) else 0
  {
    SumChange(Stake(escrows, asset, who), Stake(escrows[q := e], asset, who), q);
  }

  lemma StakeByDeposit(s: State, auth: set<Address>, op: EscrowOp, asset: Address, who: Address)
    requires QuestsOk(s.quests) && EscrowsOk(s.quests, s.escrows) && who.Account?
    requires op.Deposit? && DepositCheck(s, auth, op).Pass?
    ensures var s' := EscrowEffect(s, auth, op);
      Sum(Stake(s'.escrows, asset, who)) - Sum(Stake(s.escrows, asset, who)) ==
      Balance(s.tokens, asset, who) - Balance(s'.tokens, asset, who)
  {
    if op.quest in s.escrows { assert EscrowOk(s.quests[op.quest], s.escrows[op.quest]); }
    StakeMoved(s.escrows, op.quest, ToppedUp(EscrowFor(s, op), op.amount), asset, who);
  }

  lemma StakeByRefund(s: State, q: Symbol, asset: Address, who: Address)
    requires RefundCheck(s, q).Pass? && who.Account?
    requires q in s.escrows && 0 <= Available(s.escrows[q])
    ensures Sum(Stake(s.escrows[q := Closed(s.escrows[q])], asset, who)) - Sum(Stake(s.escrows, asset, who)) ==
      Balance(s.tokens, asset, who) - Balance(RefundTokens(s, q), asset, who)
  {
    StakeMoved(s.escrows, q, Closed(s.escrows[q]), asset, who);
  }

  lemma StakeByEscrowOp(s: State, auth: set<Address>, op: EscrowOp, asset: Address, who: Address)
    requires Inv(s) && EscrowCheck(s, auth, op).Pass? && who.Account?
    ensures var s' := EscrowEffect(s, auth, op);
      Sum(Stake(s'.escrows, asset, who)) - Sum(Stake(s.escrows, asset, who)) ==
      Balance(s.tokens, asset, who) - Balance(s'.tokens, asset, who)
  {
    if op.Deposit? {
      StakeByDeposit(s, auth, op, asset, who);
    } else if op.quest in s.escrows {
      assert EscrowOk(s.quests[op.quest], s.escrows[op.quest]);
      StakeByRefund(s, op.quest, asset, who);
    }
  }

  lemma StakeByQuestOp(s: State, auth: set<Address>, op: QuestOp, asset: Address, who: Address)
    requires QuestCheck(s, auth, op).Pass?
    ensures Sum(Stake(QuestEffect(s, auth, op).escrows, asset, who)) == Sum(Stake(s.escrows, asset, who))
  {
    if op.Claim? {
      if op.quest in s.escrows {
        StakeMoved(s.escrows, op.quest, PaidFromEscrow(s.escrows[op.quest], s.quests[op.quest].reward), asset, who);
      }
    } else {
      OtherQuestOpsKeepMoney(s, auth, op);
    }
  }

  lemma StakeStep(s: State, tx: Tx, asset: Address, who: Address)
    requires Inv(s) && who.Account?
    ensures Sum(Stake(Next(s, tx).escrows, asset, who)) ==
      Sum(Stake(s.escrows, asset, who)) - if tx.call.OnEscrow? then Gain(s, tx, asset, who) else 0
  {
    if Check(s, tx).Pass? {
      match tx.call
      case OnQuest(op) => StakeByQuestOp(s, tx.auth, op, asset, who);
      case OnEscrow(op) => StakeByEscrowOp(s, tx.auth, op, asset, who);
      case OnGuard(op) => GuardKeeps(s, tx.auth, op);
      case Outside(event) => OutsideKeeps(s, tx.auth, event);
    }
  }

  /** Over any run a creator's wallet has paid exactly what its escrows record as deposited and not refunded. */
  lemma {:induction false} OutlayIsStake(txs: seq<Tx>, asset: Address, who: Address)
    requires who.Account?
    ensures Outlay(txs, asset, who) == Sum(Stake(Run(GENESIS, txs).escrows, asset, who))
  {
    if txs == [] {
      assert Stake(GENESIS.escrows, asset, who) == map[];
    } else {
      var before := txs[..|txs| - 1];
      OutlayIsStake(before, asset, who);
      InvGenesis();
      InvRun(GENESIS, before);
      StakeStep(Run(GENESIS, before), txs[|txs| - 1], asset, who);
    }
  }
}
