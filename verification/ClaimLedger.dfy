/** Where the tokens of the contract with a claim step are: the pooled balance against the escrow records. */
module ClaimLedger {
  import opened Prelude
  import opened Sums
  import opened Tokens
  import opened ClaimTypes
  import opened ClaimSpec
  import opened ClaimInvariant

  /** What is still available in every escrow held in one asset. */
  ghost function Held(escrows: map<Symbol, EscrowInfo>, asset: Address): map<Symbol, int> {
    map q | q in escrows && escrows[q].token == asset :: Available(escrows[q])
  }

  /** The contract's balance beyond all escrows in the asset; negative when they are not covered. */
  ghost function Pool(s: State, asset: Address): int {
    Balance(s.tokens, asset, Contract) - Sum(Held(s.escrows, asset))
  }

  // ----- flows that no escrow record books -----

  function DonatedBy(event: OutsideEvent, asset: Address): Units {
    match event
    case Tick(_) => 0
    case Move(a, _, to, units) => if a == asset && to == Contract then units else 0
    case Issue(a, to, units) => if a == asset && to == Contract then units else 0
  }

  function Donation(s: State, tx: Tx, asset: Address): Units {
    if tx.call.Outside? && OutsideCheck(s, tx.auth, tx.call.event).Pass? then DonatedBy(tx.call.event, asset) else 0
  }

  /** A reward claimed on a quest that has no escrow comes out of the pool. */
  function UnbackedClaim(s: State, tx: Tx, asset: Address): int {
    if tx.call.OnQuest? && tx.call.quest.Claim? && QuestCheck(s, tx.auth, tx.call.quest).Pass?
       && tx.call.quest.quest !in s.escrows && s.quests[tx.call.quest.quest].asset == asset
    then s.quests[tx.call.quest.quest].reward else 0
  }

  function EmergencyOutflow(s: State, tx: Tx, asset: Address): int {
    if tx.call.OnGuard? && tx.call.op.EmergencyWithdraw? && GuardCheck(s, tx.auth, tx.call.op).Pass?
       && tx.call.op.asset == asset && tx.call.op.to != Contract
    then tx.call.op.amount else 0
  }

  // ----- one step -----

  lemma {:induction false} EscrowMoved(escrows: map<Symbol, EscrowInfo>, q: Symbol, e: EscrowInfo, asset: Address)
    requires q in escrows ==> escrows[q].token == e.token
    ensures Sum(Held(escrows[q := e], asset)) == Sum(Held(escrows, asset)) +
      (if e.token == asset then Available(e) - (if q in escrows then Available(escrows[q]) else 0) else 0)
  {
    SumChange(Held(escrows, asset), Held(escrows[q := e], asset), q);
  }

  lemma PoolClaim(s: State, auth: set<Address>, q: Symbol, u: Address, asset: Address)
    requires Inv(s) && ClaimCheck(s, auth, q, u).Pass?
    ensures Pool(ClaimEffect(s, auth, q, u), asset) ==
      Pool(s, asset) - (if q !in s.escrows && s.quests[q].asset == asset then s.quests[q].reward else 0)
  {
    if q in s.escrows {
      EscrowMoved(s.escrows, q, PaidFromEscrow(s.escrows[q], s.quests[q].reward), asset);
    }
  }

  lemma {:induction false} BatchesKeepMoney(s: State, creator: Address, items: seq<QuestInput>)
    ensures var s' := RegisteredAll(s, creator, items); s'.tokens == s.tokens && s'.escrows == s.escrows
    decreases |items|
  {
    if items == [] {
    } else {
      BatchesKeepMoney(Registered(s, creator, items[0]), creator, items[1..]);
    }
  }

  lemma {:induction false} ApprovalsKeepMoney(s: State, v: Address, items: seq<ApprovalInput>)
    requires ApprovalsCheck(s, v, items).Pass?
    ensures var s' := ApprovedAll(s, v, items); s'.tokens == s.tokens && s'.escrows == s.escrows
    decreases |items|
  {
    if items == [] {
    } else {
      ApprovalsKeepMoney(ApprovedOne(s, items[0]), v, items[1..]);
    }
  }

  /** Only claims move money among the operations on quests. */
  lemma OtherQuestOpsKeepMoney(s: State, auth: set<Address>, op: QuestOp)
    requires QuestCheck(s, auth, op).Pass? && !op.Claim?
    ensures QuestEffect(s, auth, op).tokens == s.tokens && QuestEffect(s, auth, op).escrows == s.escrows
  {
    match op
    case RegisterBatch(creator, items) => BatchesKeepMoney(s, creator, items);
    case ApproveBatch(v, items) => ApprovalsKeepMoney(s, v, items);
    case _ =>
  }

  lemma PoolQuestStep(s: State, auth: set<Address>, op: QuestOp, asset: Address)
    requires Inv(s) && QuestCheck(s, auth, op).Pass?
    ensures Pool(QuestEffect(s, auth, op), asset) ==
      Pool(s, asset) - UnbackedClaim(s, Tx(auth, OnQuest(op)), asset)
  {
    if op.Claim? {
      PoolClaim(s, auth, op.quest, op.submitter, asset);
    } else {
      OtherQuestOpsKeepMoney(s, auth, op);
    }
  }

  /** Tokens paid in by another account and booked to an escrow, existing or new. */
  lemma {:induction false} PoolTopUp(tokens: Ledger, escrows: map<Symbol, EscrowInfo>, q: Symbol, e: EscrowInfo,
      from: Address, amount: int, asset: Address)
    requires if q in escrows then e == escrows[q] else Available(e) == 0
    requires e.depositCount < U32_MAX && from.Account? && CanTransfer(tokens, e.token, from, Contract, amount)
    ensures Balance(Transfer(tokens, e.token, from, Contract, amount), asset, Contract)
      - Sum(Held(escrows[q := ToppedUp(e, amount)], asset))
      == Balance(tokens, asset, Contract) - Sum(Held(escrows, asset))
  {
    EscrowMoved(escrows, q, ToppedUp(e, amount), asset);
  }

  lemma PoolDeposit(s: State, auth: set<Address>, op: EscrowOp, asset: Address)
    requires Inv(s) && op.Deposit? && DepositCheck(s, auth, op).Pass?
    ensures Pool(EscrowEffect(s, auth, op), asset) == Pool(s, asset)
  {
    DepositInAsset(s, auth, op);
    PoolTopUp(s.tokens, s.escrows, op.quest, EscrowFor(s, op), op.creator, op.amount, asset);
  }

  /** A deposit is in its escrow's own token. */
  lemma DepositInAsset(s: State, auth: set<Address>, op: EscrowOp)
    requires Inv(s) && op.Deposit? && DepositCheck(s, auth, op).Pass?
    ensures op.creator.Account? && EscrowFor(s, op).token == op.token
  {
    if op.quest in s.escrows { assert EscrowOk(s.quests[op.quest], s.escrows[op.quest]); }
  }

  lemma PoolRefund(s: State, s': State, q: Symbol, asset: Address)
    requires EscrowsOk(s.quests, s.escrows) && QuestsOk(s.quests) && q in s.quests && RefundCheck(s, q).Pass?
    requires s'.tokens == RefundTokens(s, q)
    requires s'.escrows == if q in s.escrows then s.escrows[q := Closed(s.escrows[q])] else s.escrows
    ensures Pool(s', asset) == Pool(s, asset)
  {
    if q in s.escrows {
      assert EscrowOk(s.quests[q], s.escrows[q]) && QuestOk(q, s.quests[q]);
      EscrowMoved(s.escrows, q, Closed(s.escrows[q]), asset);
    }
  }

  lemma PoolEscrowStep(s: State, auth: set<Address>, op: EscrowOp, asset: Address)
    requires Inv(s) && EscrowCheck(s, auth, op).Pass?
    ensures Pool(EscrowEffect(s, auth, op), asset) == Pool(s, asset)
  {
    if op.Deposit? {
      PoolDeposit(s, auth, op, asset);
    } else {
      PoolRefund(s, EscrowEffect(s, auth, op), op.quest, asset);
    }
  }

  lemma PoolGuardStep(s: State, auth: set<Address>, op: GuardOp, asset: Address)
    requires GuardCheck(s, auth, op).Pass?
    ensures Pool(GuardEffect(s, auth, op), asset) == Pool(s, asset) - EmergencyOutflow(s, Tx(auth, OnGuard(op)), asset)
  {
  }

  lemma PoolOutsideStep(s: State, auth: set<Address>, event: OutsideEvent, asset: Address)
    requires OutsideCheck(s, auth, event).Pass?
    ensures Pool(OutsideEffect(s, auth, event), asset) == Pool(s, asset) + DonatedBy(event, asset)
  {
  }

  lemma PoolQuestNext(s: State, auth: set<Address>, op: QuestOp, asset: Address)
    requires Inv(s)
    ensures Pool(Next(s, Tx(auth, OnQuest(op))), asset) ==
      Pool(s, asset) - UnbackedClaim(s, Tx(auth, OnQuest(op)), asset)
  {
    if QuestCheck(s, auth, op).Pass? { PoolQuestStep(s, auth, op, asset); }
  }

  lemma PoolEscrowNext(s: State, auth: set<Address>, op: EscrowOp, asset: Address)
    requires Inv(s)
    ensures Pool(Next(s, Tx(auth, OnEscrow(op))), asset) == Pool(s, asset)
  {
    if EscrowCheck(s, auth, op).Pass? { PoolEscrowStep(s, auth, op, asset); }
  }

  lemma PoolGuardNext(s: State, auth: set<Address>, op: GuardOp, asset: Address)
    ensures Pool(Next(s, Tx(auth, OnGuard(op))), asset) ==
      Pool(s, asset) - EmergencyOutflow(s, Tx(auth, OnGuard(op)), asset)
  {
    if GuardCheck(s, auth, op).Pass? { PoolGuardStep(s, auth, op, asset); }
  }

  lemma PoolOutsideNext(s: State, auth: set<Address>, event: OutsideEvent, asset: Address)
    ensures Pool(Next(s, Tx(auth, Outside(event))), asset) ==
      Pool(s, asset) + Donation(s, Tx(auth, Outside(event)), asset)
  {
    if OutsideCheck(s, auth, event).Pass? { PoolOutsideStep(s, auth, event, asset); }
  }

  lemma PoolStep(s: State, tx: Tx, asset: Address)
    requires Inv(s)
    ensures Pool(Next(s, tx), asset) ==
      Pool(s, asset) + Donation(s, tx, asset) - UnbackedClaim(s, tx, asset) - EmergencyOutflow(s, tx, asset)
  {
    match tx.call
    case OnQuest(op) => PoolQuestNext(s, tx.auth, op, asset);
    case OnEscrow(op) => PoolEscrowNext(s, tx.auth, op, asset);
    case OnGuard(op) => PoolGuardNext(s, tx.auth, op, asset);
    case Outside(event) => PoolOutsideNext(s, tx.auth, event, asset);
  }

  // ----- whole runs -----

  ghost function Donated(s: State, txs: seq<Tx>, asset: Address): int {
    if txs == [] then 0 else
      var before := txs[..|txs| - 1];
      Donated(s, before, asset) + Donation(Run(s, before), txs[|txs| - 1], asset)
  }

  ghost function UnbackedClaims(s: State, txs: seq<Tx>, asset: Address): int {
    if txs == [] then 0 else
      var before := txs[..|txs| - 1];
      UnbackedClaims(s, before, asset) + UnbackedClaim(Run(s, before), txs[|txs| - 1], asset)
  }

  ghost function EmergencyOutflows(s: State, txs: seq<Tx>, asset: Address): int {
    if txs == [] then 0 else
      var before := txs[..|txs| - 1];
      EmergencyOutflows(s, before, asset) + EmergencyOutflow(Run(s, before), txs[|txs| - 1], asset)
  }

  lemma {:induction false} PoolRun(s: State, txs: seq<Tx>, asset: Address)
    requires Inv(s)
    ensures Pool(Run(s, txs), asset) == Pool(s, asset)
      + Donated(s, txs, asset) - UnbackedClaims(s, txs, asset) - EmergencyOutflows(s, txs, asset)
  {
    if txs == [] {
    } else {
      var before := txs[..|txs| - 1];
      PoolRun(s, before, asset);
      InvRun(s, before);
      PoolStep(Run(s, before), txs[|txs| - 1], asset);
    }
  }

  lemma PoolGenesis(asset: Address)
    ensures Inv(GENESIS) && Pool(GENESIS, asset) == 0
  {
    InvGenesis();
    assert Held(GENESIS.escrows, asset) == map[];
  }

  lemma {:induction false} PoolRunFromNothing(s: State, txs: seq<Tx>, asset: Address)
    requires Inv(s) && Pool(s, asset) == 0
    ensures Pool(Run(s, txs), asset) ==
      Donated(s, txs, asset) - UnbackedClaims(s, txs, asset) - EmergencyOutflows(s, txs, asset)
  {
    PoolRun(s, txs, asset);
  }

  lemma {:induction false} PoolFromGenesis(txs: seq<Tx>, asset: Address)
    ensures Pool(Run(GENESIS, txs), asset) == Donated(GENESIS, txs, asset)
      - UnbackedClaims(GENESIS, txs, asset) - EmergencyOutflows(GENESIS, txs, asset)
  {
    PoolGenesis(asset);
    PoolRunFromNothing(GENESIS, txs, asset);
  }

  /** Balance + unbacked claims + emergency withdrawals = donations + what all escrows still hold. */
  lemma {:induction false} PooledLedger(txs: seq<Tx>, asset: Address)
    ensures var s := Run(GENESIS, txs);
      Balance(s.tokens, asset, Contract) + UnbackedClaims(GENESIS, txs, asset) + EmergencyOutflows(GENESIS, txs, asset)
      == Donated(GENESIS, txs, asset) + Sum(Held(s.escrows, asset))
  {
    PoolFromGenesis(txs, asset);
  }

  /** The outflows that no escrow record books stay within the donations. */
  ghost predicate Covered(txs: seq<Tx>, asset: Address) {
    UnbackedClaims(GENESIS, txs, asset) + EmergencyOutflows(GENESIS, txs, asset) <= Donated(GENESIS, txs, asset)
  }

  /** The escrows in an asset are covered together exactly when the unbooked outflows stay within the donations. */
  lemma {:induction false} CoveredIff(txs: seq<Tx>, asset: Address)
    ensures var s := Run(GENESIS, txs);
      Sum(Held(s.escrows, asset)) <= Balance(s.tokens, asset, Contract)
      <==> Covered(txs, asset)
  {
    PooledLedger(txs, asset);
  }

  /** In that case no refund and no escrow-backed claim lacks tokens; only a receiver's limit can stop it. */
  lemma {:induction false} CoveredEscrowsPay(txs: seq<Tx>, q: Symbol)
    requires q in Run(GENESIS, txs).escrows && Covered(txs, Run(GENESIS, txs).escrows[q].token)
    ensures var s := Run(GENESIS, txs);
      var e := s.escrows[q];
      forall to: Address, amount: int :: to.Account? && 0 <= amount <= Available(e) ==>
        (CanTransfer(s.tokens, e.token, Contract, to, amount) <==> Balance(s.tokens, e.token, to) + amount <= I128_MAX)
  {
    var s := Run(GENESIS, txs);
    InvGenesis();
    InvRun(GENESIS, txs);
    CoveredIff(txs, s.escrows[q].token);
    SumBoundsEntry(Held(s.escrows, s.escrows[q].token), q);
  }

  // ----- exactly which claims and refunds go through -----

  /** What a claim of an approved submission needs besides cover and tokens. */
  predicate MayClaim(s: State, auth: set<Address>, q: Symbol, u: Address)
    requires q in s.quests
  {
    && !s.guard.paused && Signed(auth, u) && s.quests[q].totalClaims < 10_000
    && Balance(s.tokens, s.quests[q].asset, u) + s.quests[q].reward <= I128_MAX && StatsHaveRoom(s, u)
  }

  lemma PayableIff(s: State, auth: set<Address>, q: Symbol, u: Address)
    requires q in s.quests && (q, u) in s.subs && s.subs[(q, u)].status.Approved? && u.Account?
    requires QuestOk(q, s.quests[q]) && (q in s.escrows ==> EscrowOk(s.quests[q], s.escrows[q]))
    ensures var quest := s.quests[q];
      ClaimCheck(s, auth, q, u).Pass? <==>
        && MayClaim(s, auth, q, u)
        && (q in s.escrows ==> !Terminal(quest.status) && quest.reward <= Available(s.escrows[q]))
        && quest.reward <= Balance(s.tokens, quest.asset, Contract)
  {
    if q in s.escrows {
      EscrowBounds(s.quests[q], s.escrows[q]);
      var e, reward := s.escrows[q], s.quests[q].reward;
      assert reward <= Available(e) ==> TotalsFit(PaidFromEscrow(e, reward));
    }
  }

  /**
   In every reachable state an approved submission can be claimed exactly when the contract
   holds a reward's worth of the asset and the escrow, where the quest has one, is open and
   covers it, apart from the pause, the signature and the limits in MayClaim. Approval
   ensures neither.
   */
  lemma {:induction false} ClaimSucceedsIff(txs: seq<Tx>, auth: set<Address>, q: Symbol, u: Address)
    requires var s := Run(GENESIS, txs); (q, u) in s.subs && s.subs[(q, u)].status.Approved?
    ensures var s := Run(GENESIS, txs);
      q in s.quests &&
      var quest := s.quests[q];
      ClaimCheck(s, auth, q, u).Pass? <==>
        && MayClaim(s, auth, q, u)
        && (q in s.escrows ==> !Terminal(quest.status) && quest.reward <= Available(s.escrows[q]))
        && quest.reward <= Balance(s.tokens, quest.asset, Contract)
  {
    var s := Run(GENESIS, txs);
    InvGenesis();
    InvRun(GENESIS, txs);
    assert (q, u).0 in s.quests && (q, u).1.Account? && QuestOk(q, s.quests[q]);
    PayableIff(s, auth, q, u);
  }

  /** Where the asset is covered, an open escrow that covers the reward is enough. */
  lemma {:induction false} CoveredClaimSucceedsIff(txs: seq<Tx>, auth: set<Address>, q: Symbol, u: Address)
    requires var s := Run(GENESIS, txs);
      q in s.escrows && Covered(txs, s.escrows[q].token) && (q, u) in s.subs && s.subs[(q, u)].status.Approved?
    ensures var s := Run(GENESIS, txs);
      q in s.quests &&
      (ClaimCheck(s, auth, q, u).Pass? <==>
         MayClaim(s, auth, q, u) && !Terminal(s.quests[q].status) && s.quests[q].reward <= Available(s.escrows[q]))
  {
    var s := Run(GENESIS, txs);
    ClaimSucceedsIff(txs, auth, q, u);
    EscrowWithinBalance(txs, q);
  }

  /** Where the asset is covered, no escrow holds more than the contract does. */
  lemma {:induction false} EscrowWithinBalance(txs: seq<Tx>, q: Symbol)
    requires q in Run(GENESIS, txs).escrows && Covered(txs, Run(GENESIS, txs).escrows[q].token)
    ensures var s := Run(GENESIS, txs);
      q in s.quests && s.escrows[q].token == s.quests[q].asset
      && Available(s.escrows[q]) <= Balance(s.tokens, s.escrows[q].token, Contract)
  {
    var s := Run(GENESIS, txs);
    InvGenesis();
    InvRun(GENESIS, txs);
    CoveredIff(txs, s.escrows[q].token);
    SumBoundsEntry(Held(s.escrows, s.escrows[q].token), q);
  }

  /**
   In every reachable state a refund goes through exactly when the contract holds what the
   escrow has left and the creator's balance can take it.
   */
  lemma {:induction false} RefundSucceedsIff(txs: seq<Tx>, q: Symbol)
    requires q in Run(GENESIS, txs).escrows
    ensures var s := Run(GENESIS, txs);
      var e := s.escrows[q];
      RefundCheck(s, q).Pass? <==>
        && Available(e) <= Balance(s.tokens, e.token, Contract)
        && Balance(s.tokens, e.token, e.depositor) + Available(e) <= I128_MAX
  {
    var s := Run(GENESIS, txs);
    InvGenesis();
    InvRun(GENESIS, txs);
    assert EscrowOk(s.quests[q], s.escrows[q]) && QuestOk(q, s.quests[q]);
    EscrowBounds(s.quests[q], s.escrows[q]);
  }

  /** Where the asset is covered, only the creator's own balance limit can stop the refund. */
  lemma {:induction false} CoveredRefundSucceedsIff(txs: seq<Tx>, q: Symbol)
    requires q in Run(GENESIS, txs).escrows && Covered(txs, Run(GENESIS, txs).escrows[q].token)
    ensures var s := Run(GENESIS, txs);
      var e := s.escrows[q];
      RefundCheck(s, q).Pass? <==> Balance(s.tokens, e.token, e.depositor) + Available(e) <= I128_MAX
  {
    RefundSucceedsIff(txs, q);
    EscrowWithinBalance(txs, q);
  }

  // ----- arithmetic -----

  lemma EscrowBounds(quest: Quest, e: EscrowInfo)
    requires EscrowOk(quest, e)
    ensures 0 <= e.paidOut + e.refunded <= e.deposited <= MAX_REWARD_AMOUNT * e.depositCount
    ensures TotalsFit(e) && TotalsFit(Closed(e))
    ensures forall amount: int :: 0 <= amount <= Available(e) ==> TotalsFit(PaidFromEscrow(e, amount))
    ensures forall amount: int :: 0 <= amount <= MAX_REWARD_AMOUNT && e.depositCount < U32_MAX ==>
      TotalsFit(ToppedUp(e, amount))
  {
  }

  /**
   In a reachable state the totals of an escrow are ordered and far inside i128, so of
   all the overflow traps on them only the deposit counter's can fire.
   */
  lemma {:induction false} EscrowArithmeticNeverOverflows(txs: seq<Tx>, q: Symbol)
    requires q in Run(GENESIS, txs).escrows
    ensures var s := Run(GENESIS, txs);
      var e := s.escrows[q];
      && q in s.quests && e.paidOut <= s.quests[q].reward * s.quests[q].totalClaims
      && s.quests[q].totalClaims <= 10_000
      && 0 <= e.paidOut + e.refunded <= e.deposited <= 1_000_000_000_000_000 * e.depositCount
      && TotalsFit(e) && TotalsFit(Closed(e))
      && (forall amount: int :: 0 <= amount <= Available(e) ==> TotalsFit(PaidFromEscrow(e, amount)))
      && (forall amount: int :: 0 <= amount <= MAX_REWARD_AMOUNT && e.depositCount < U32_MAX ==>
            TotalsFit(ToppedUp(e, amount)))
  {
    InvGenesis();
    InvRun(GENESIS, txs);
    var s := Run(GENESIS, txs);
    EscrowBounds(s.quests[q], s.escrows[q]);
    assert QuestOk(q, s.quests[q]);
  }
}
