/**
 Exactly which calls the contract with a claim step accepts and what they leave. The
 conditions are on what is stored, on the clock and on earlier calls, not on the checks.
 */
module ClaimAcceptance {
  import opened Prelude
  import opened Tokens
  import opened ClaimTypes
  import opened ClaimSpec
  import opened ClaimInvariant
  import opened ClaimBatch
  import opened ClaimStory
  import opened ClaimPause
  import opened ClaimLedger
  import opened ClaimLifecycle

  function OnQuestTx(auth: set<Address>, op: QuestOp): Tx {
    Tx(auth, OnQuest(op))
  }

  function OnGuardTx(auth: set<Address>, op: GuardOp): Tx {
    Tx(auth, OnGuard(op))
  }

  /** The contract is running and the one the call is for has signed. */
  predicate Open(s: State, auth: set<Address>, who: Address) {
    !s.guard.paused && Signed(auth, who)
  }

  predicate ByAdmin(s: State, auth: set<Address>, caller: Address) {
    Signed(auth, caller) && caller in s.admins
  }

  // ----- setting quests up -----

  /** The bounds on metadata. */
  predicate Fits(m: QuestMetadata) {
    && |m.title| <= 80 && |m.category| <= 40
    && |m.tags| <= 15 && (forall tag :: tag in m.tags ==> |tag| <= 32)
    && |m.requirements| <= 20 && (forall text :: text in m.requirements ==> |text| <= 200)
    && (m.description.Inline? ==> |m.description.text| <= 1200)
  }

  lemma {:induction false} ShortIff(texts: seq<string>, max: nat)
    ensures AllShort(texts, max) <==> forall text :: text in texts ==> |text| <= max
  {
    if AllShort(texts, max) {
    } else {
      var i :| 0 <= i < |texts| && |texts[i]| > max;
      assert texts[i] in texts;
    }
  }

  lemma FitsIff(m: QuestMetadata)
    ensures MetadataCheck(m).Pass? <==> Fits(m)
  {
    ShortIff(m.tags, 32);
    ShortIff(m.requirements, 200);
  }

  /** The new quest, its place at the end of the index and its event. */
  ghost predicate AddsQuest(s: State, s': State, creator: Address, item: QuestInput) {
    s' == s.(
      quests := s.quests[item.id :=
        Quest(item.id, creator, item.asset, item.reward, item.verifier, item.deadline, Active, 0)],
      questIds := s.questIds + [item.id],
      metadata := s'.metadata,
      log := s.log + [QuestRegistered(item.id, creator, item.asset, item.reward, item.verifier, item.deadline)])
  }

  lemma RegisterSucceedsIff(s: State, auth: set<Address>, creator: Address, item: QuestInput)
    ensures var tx := OnQuestTx(auth, Register(creator, item));
      && (Check(s, tx).Pass? <==> Open(s, auth, creator) && Registrable(s, creator, item))
      && (Check(s, tx).Pass? ==> AddsQuest(s, Next(s, tx), creator, item) && Next(s, tx).metadata == s.metadata)
  {
  }

  /** A described registration needs fitting metadata as well, and stores it with the quest. */
  lemma RegisterDescribedSucceedsIff(s: State, auth: set<Address>, creator: Address, item: QuestInput,
      m: QuestMetadata)
    ensures var tx := OnQuestTx(auth, RegisterDescribed(creator, item, m));
      && (Check(s, tx).Pass? <==> Open(s, auth, creator) && Registrable(s, creator, item) && Fits(m))
      && (Check(s, tx).Pass? ==>
            AddsQuest(s, Next(s, tx), creator, item) && Next(s, tx).metadata == s.metadata[item.id := m])
  {
    FitsIff(m);
  }

  /** A batch of 1 to 50 registrable items with distinct ids. */
  lemma {:induction false} RegisterBatchSucceedsIff(s: State, auth: set<Address>, creator: Address,
      items: seq<QuestInput>)
    ensures Check(s, OnQuestTx(auth, RegisterBatch(creator, items))).Pass? <==>
      Open(s, auth, creator) && 1 <= |items| <= 50 && AllRegistrable(s, creator, items) && DistinctIds(items)
  {
    RegistrationsPassIff(s, creator, items);
  }

  /** Metadata may be replaced by the creator or any admin, whatever the quest's status. */
  lemma DescribeSucceedsIff(s: State, auth: set<Address>, q: Symbol, updater: Address, m: QuestMetadata)
    ensures var tx := OnQuestTx(auth, Describe(q, updater, m));
      && (Check(s, tx).Pass? <==>
            && Open(s, auth, updater) && q in s.quests && Fits(m)
            && (updater == s.quests[q].creator || updater in s.admins))
      && (Check(s, tx).Pass? ==> Next(s, tx) == s.(metadata := s.metadata[q := m]))
  {
    FitsIff(m);
    assert s.log + [] == s.log;
  }

  // ----- work on quests -----

  /** An admin pauses an active quest and resumes a paused one. */
  lemma PauseQuestSucceedsIff(s: State, auth: set<Address>, caller: Address, q: Symbol)
    ensures var tx := OnQuestTx(auth, PauseQuest(caller, q));
      && (Check(s, tx).Pass? <==>
            !s.guard.paused && ByAdmin(s, auth, caller) && q in s.quests && s.quests[q].status == Active)
      && (Check(s, tx).Pass? ==>
            Next(s, tx) == s.(quests := s.quests[q := s.quests[q].(status := Paused)],
                              log := s.log + [QuestPaused(q, caller)]))
  {
  }

  lemma ResumeQuestSucceedsIff(s: State, auth: set<Address>, caller: Address, q: Symbol)
    ensures var tx := OnQuestTx(auth, ResumeQuest(caller, q));
      && (Check(s, tx).Pass? <==>
            !s.guard.paused && ByAdmin(s, auth, caller) && q in s.quests && s.quests[q].status == Paused)
      && (Check(s, tx).Pass? ==>
            Next(s, tx) == s.(quests := s.quests[q := s.quests[q].(status := Active)],
                              log := s.log + [QuestResumed(q, caller)]))
  {
  }

  /** A proof is accepted for an active quest strictly before its deadline, whatever was submitted before. */
  lemma SubmitSucceedsIff(s: State, auth: set<Address>, q: Symbol, u: Address, proof: Hash)
    ensures var tx := OnQuestTx(auth, Submit(q, u, proof));
      && (Check(s, tx).Pass? <==>
            Open(s, auth, u) && q in s.quests && s.quests[q].status == Active && s.now < s.quests[q].deadline)
      && (Check(s, tx).Pass? ==>
            Next(s, tx) == s.(subs := s.subs[(q, u) := Submission(q, u, proof, Pending, s.now)],
                              log := s.log + [ProofSubmitted(q, u, proof)]))
  {
  }

  /** What a batch item must satisfy in a reachable state: a quest that can still run, where there is an escrow. */
  predicate Payable(s: State, v: Address, item: ApprovalInput) {
    && item.quest in s.quests && s.quests[item.quest].verifier == v
    && (item.quest, item.submitter) in s.subs && s.subs[(item.quest, item.submitter)].status == Pending
    && (item.quest in s.escrows ==>
          var e, quest := s.escrows[item.quest], s.quests[item.quest];
          (quest.status == Active || quest.status == Paused) && quest.reward <= e.deposited - e.paidOut - e.refunded)
  }

  lemma ApprovableIff(s: State, v: Address, item: ApprovalInput)
    requires Inv(s)
    ensures Approvable(s, v, item) <==> Payable(s, v, item)
  {
    if item.quest in s.escrows {
      EscrowBounds(s.quests[item.quest], s.escrows[item.quest]);
      assert QuestOk(item.quest, s.quests[item.quest]);
    }
  }

  /** In every reachable state, which items pass. */
  lemma {:induction false} ItemPassesIff(txs: seq<Tx>, v: Address, item: ApprovalInput)
    ensures ApprovalCheck(Run(GENESIS, txs), v, item).Pass? <==> Payable(Run(GENESIS, txs), v, item)
  {
    InvGenesis();
    InvRun(GENESIS, txs);
    ApprovalPassesIff(Run(GENESIS, txs), v, item);
    ApprovableIff(Run(GENESIS, txs), v, item);
  }

  predicate BatchPayable(s: State, v: Address, items: seq<ApprovalInput>) {
    forall i :: 0 <= i < |items| ==> items[i].submitter != v && Payable(s, v, items[i])
  }

  /**
   In every reachable state a batch approval is accepted exactly from a signing verifier of
   all its quests, with 1 to 50 distinct items, none the verifier's own, each pending and, where
   there is an escrow, of a quest that can still run and a reward the escrow has left. It
   approves exactly those submissions and logs each.
   */
  lemma {:induction false} BatchApprovalSucceedsIff(txs: seq<Tx>, auth: set<Address>, v: Address,
      items: seq<ApprovalInput>)
    ensures var s, tx := Run(GENESIS, txs), OnQuestTx(auth, ApproveBatch(v, items));
      && (Check(s, tx).Pass? <==>
            Open(s, auth, v) && 1 <= |items| <= 50 && NoRepeats(items) && BatchPayable(s, v, items))
      && (Check(s, tx).Pass? ==> Next(s, tx) == s.(subs := Flipped(s.subs, items), log := Next(s, tx).log))
  {
    var s := Run(GENESIS, txs);
    InvGenesis();
    InvRun(GENESIS, txs);
    BatchApproval(s, auth, v, items);
    forall item ensures Approvable(s, v, item) <==> Payable(s, v, item) { ApprovableIff(s, v, item); }
    assert (forall i :: 0 <= i < |items| ==> items[i].submitter != v) && AllApprovable(s, v, items)
      <==> BatchPayable(s, v, items);
  }

  /** An accepted approval batch logs one event for each item, in order. */
  lemma {:induction false} BatchApprovalLogs(s: State, auth: set<Address>, v: Address, items: seq<ApprovalInput>,
      i: nat)
    requires Check(s, OnQuestTx(auth, ApproveBatch(v, items))).Pass? && i < |items|
    ensures var log := Next(s, OnQuestTx(auth, ApproveBatch(v, items))).log;
      |log| == |s.log| + |items| && s.log <= log
      && log[|s.log| + i] == SubmissionApproved(items[i].quest, items[i].submitter, v)
  {
  }

  /** The submission, claim count, escrow, tokens and experience after a claim. */
  ghost predicate PaidByClaim(s: State, s': State, q: Symbol, u: Address) {
    && q in s.quests && (q, u) in s.subs && s.subs[(q, u)].status == Approved
    && s'.subs == s.subs[(q, u) := s.subs[(q, u)].(status := Paid)]
    && s.quests[q].totalClaims < 10_000
    && s'.quests == s.quests[q := s.quests[q].(totalClaims := s.quests[q].totalClaims + 1)]
    && var asset, reward := s.quests[q].asset, s.quests[q].reward;
       && Balance(s'.tokens, asset, u) == Balance(s.tokens, asset, u) + reward
       && Balance(s'.tokens, asset, Contract) == Balance(s.tokens, asset, Contract) - reward
       && s'.escrows.Keys == s.escrows.Keys
       && (q in s.escrows ==>
             s'.escrows == s.escrows[q := s.escrows[q].(paidOut := s.escrows[q].paidOut + reward)])
       && (q !in s.escrows ==> s'.escrows == s.escrows)
  }

  lemma ClaimMovesTokens(s: State, auth: set<Address>, q: Symbol, u: Address)
    requires ClaimCheck(s, auth, q, u).Pass?
    ensures var t, t' := s.tokens, ClaimEffect(s, auth, q, u).tokens;
      var asset, reward := s.quests[q].asset, s.quests[q].reward;
      && Balance(t', asset, u) == Balance(t, asset, u) + reward
      && Balance(t', asset, Contract) == Balance(t, asset, Contract) - reward
  {
  }

  /** An accepted claim pays the reward, out of the escrow's record where there is one, and counts it once. */
  lemma ClaimOutcome(s: State, auth: set<Address>, q: Symbol, u: Address)
    requires ClaimCheck(s, auth, q, u).Pass?
    ensures PaidByClaim(s, ClaimEffect(s, auth, q, u), q, u)
  {
    ClaimClaims(s, auth, q, u);
    ClaimMovesTokens(s, auth, q, u);
  }

  /** The escrow's payout first, then the reward, the experience as it now is, and a new level if there is one. */
  lemma ClaimLogs(s: State, auth: set<Address>, q: Symbol, u: Address)
    requires ClaimCheck(s, auth, q, u).Pass?
    ensures var s' := ClaimEffect(s, auth, q, u);
      var reward, after := s.quests[q].reward, s'.stats[u];
      ClaimEvents(s, auth, q, u) ==
        (if q in s.escrows then [EscrowPayout(q, u, reward, Available(s'.escrows[q]))] else [])
        + [RewardClaimed(q, u, s.quests[q].asset, reward), XpAwarded(u, 100, after.xp, after.level)]
        + (if after.level > StatsOf(s, u).level then [LevelUp(u, after.level)] else [])
  {
    ClaimClaims(s, auth, q, u);
  }

  /** Badges are given by admins, to anyone who has fewer than fifty. */
  lemma BadgeSucceedsIff(s: State, auth: set<Address>, caller: Address, user: Address, badge: Badge)
    ensures Check(s, OnQuestTx(auth, GrantBadge(caller, user, badge))).Pass? <==>
      !s.guard.paused && ByAdmin(s, auth, caller) && |StatsOf(s, user).badges| < 50
  {
  }

  // ----- escrow -----

  predicate ByCreator(s: State, auth: set<Address>, q: Symbol, creator: Address) {
    Open(s, auth, creator) && q in s.quests && s.quests[q].creator == creator
  }

  predicate CanRun(status: QuestStatus) {
    status == Active || status == Paused
  }

  /**
   In every reachable state a deposit is accepted from the creator of a quest that can still
   run, in the quest's asset, of up to 10^15 units the creator has and the contract can hold; of the
   totals only the number of deposits is a limit.
   */
  lemma {:induction false} DepositSucceedsIff(txs: seq<Tx>, auth: set<Address>, q: Symbol, creator: Address,
      token: Address, amount: i128)
    ensures var s := Run(GENESIS, txs);
      Check(s, Tx(auth, OnEscrow(Deposit(q, creator, token, amount)))).Pass? <==>
        && ByCreator(s, auth, q, creator) && CanRun(s.quests[q].status) && token == s.quests[q].asset
        && 0 < amount <= 1_000_000_000_000_000 && amount <= Balance(s.tokens, token, creator)
        && Balance(s.tokens, token, Contract) + amount <= I128_MAX
        && (q in s.escrows ==> s.escrows[q].depositCount < U32_MAX)
  {
    var s, op := Run(GENESIS, txs), Deposit(q, creator, token, amount);
    InvGenesis();
    InvRun(GENESIS, txs);
    if ByCreator(s, auth, q, creator) && CanRun(s.quests[q].status) && token == s.quests[q].asset {
      EscrowForOk(s, op);
      EscrowBounds(s.quests[q], EscrowFor(s, op));
    } else if q in s.quests {
      assert QuestOk(q, s.quests[q]);
    }
  }

  /** What is left can be paid back: the contract holds it, and the creator's balance can take it. */
  predicate Refundable(s: State, q: Symbol) {
    q in s.escrows ==>
      var e := s.escrows[q];
      var left := e.deposited - e.paidOut - e.refunded;
      left <= Balance(s.tokens, e.token, Contract) && Balance(s.tokens, e.token, e.depositor) + left <= I128_MAX
  }

  lemma {:induction false} RefundPassesIff(txs: seq<Tx>, q: Symbol)
    ensures RefundCheck(Run(GENESIS, txs), q).Pass? <==> Refundable(Run(GENESIS, txs), q)
  {
    if q in Run(GENESIS, txs).escrows { RefundSucceedsIff(txs, q); }
  }

  /** Cancelling takes the creator and a quest that can still run; expiring waits for the deadline as well. */
  lemma {:induction false} EndSucceedsIff(txs: seq<Tx>, auth: set<Address>, q: Symbol, creator: Address)
    ensures var s := Run(GENESIS, txs);
      var mayEnd := ByCreator(s, auth, q, creator) && CanRun(s.quests[q].status) && Refundable(s, q);
      && (Check(s, Tx(auth, OnEscrow(Cancel(q, creator)))).Pass? <==> mayEnd)
      && (Check(s, Tx(auth, OnEscrow(Expire(q, creator)))).Pass? <==> mayEnd && s.quests[q].deadline <= s.now)
  {
    var s := Run(GENESIS, txs);
    InvGenesis();
    InvRun(GENESIS, txs);
    RefundPassesIff(txs, q);
    if q in s.quests { assert QuestOk(q, s.quests[q]); }
  }

  /** The quest has the status, its escrow is closed with nothing left, and the creator has what was left. */
  ghost predicate EndedWith(s: State, s': State, q: Symbol, status: QuestStatus) {
    && q in s.quests && s'.quests == s.quests[q := s.quests[q].(status := status)]
    && (if q in s.escrows then
          var e := s.escrows[q];
          var left := e.deposited - e.paidOut;
          && s'.escrows == s.escrows[q := e.(refunded := left, active := false)]
          && Balance(s'.tokens, e.token, e.depositor) == Balance(s.tokens, e.token, e.depositor) + left
          && Balance(s'.tokens, e.token, Contract) == Balance(s.tokens, e.token, Contract) - left
        else s'.escrows == s.escrows && s'.tokens == s.tokens)
  }

  lemma RefundReturns(s: State, q: Symbol)
    requires Inv(s) && q in s.escrows && s.escrows[q].active && RefundCheck(s, q).Pass?
    ensures var e := s.escrows[q];
      var left := e.deposited - e.paidOut;
      && Closed(e) == e.(refunded := left, active := false)
      && Balance(RefundTokens(s, q), e.token, e.depositor) == Balance(s.tokens, e.token, e.depositor) + left
      && Balance(RefundTokens(s, q), e.token, Contract) == Balance(s.tokens, e.token, Contract) - left
  {
    assert EscrowOk(s.quests[q], s.escrows[q]) && QuestOk(q, s.quests[q]);
  }

  lemma EndMoves(s: State, auth: set<Address>, op: EscrowOp)
    requires Inv(s) && (op.Cancel? || op.Expire?) && EndCheck(s, auth, op).Pass?
    ensures var s' := EscrowEffect(s, auth, op);
      s'.tokens == RefundTokens(s, op.quest) && !Terminal(s.quests[op.quest].status)
      && EndedBy(s, s', op.quest, if op.Cancel? then Cancelled else Expired)
  {
    EndEnds(s, auth, op);
  }

  lemma EndedAndPaid(s: State, s': State, q: Symbol, status: QuestStatus)
    requires Inv(s) && EndedBy(s, s', q, status) && !Terminal(s.quests[q].status) && RefundCheck(s, q).Pass?
    requires s'.tokens == RefundTokens(s, q)
    ensures EndedWith(s, s', q, status)
  {
    if q in s.escrows {
      assert EscrowOk(s.quests[q], s.escrows[q]);
      RefundReturns(s, q);
    }
  }

  /** A cancelled quest is cancelled, an expired one expired, and the creator has all that the claims left. */
  lemma {:induction false} EndOutcome(txs: seq<Tx>, auth: set<Address>, op: EscrowOp)
    requires (op.Cancel? || op.Expire?) && Check(Run(GENESIS, txs), Tx(auth, OnEscrow(op))).Pass?
    ensures EndedWith(Run(GENESIS, txs), Next(Run(GENESIS, txs), Tx(auth, OnEscrow(op))), op.quest,
                      if op.Cancel? then Cancelled else Expired)
  {
    var s := Run(GENESIS, txs);
    InvGenesis();
    InvRun(GENESIS, txs);
    EndMoves(s, auth, op);
    EndedAndPaid(s, EscrowEffect(s, auth, op), op.quest, if op.Cancel? then Cancelled else Expired);
  }

  // ----- governance -----

  /** Initialisation once; admins added and removed by admins while running; pause and settings by admins always. */
  lemma GovernanceSucceedsIff(s: State, auth: set<Address>, caller: Address, admin: Address, threshold: u32,
      seconds: u64)
    ensures Check(s, OnGuardTx(auth, Initialize(caller))).Pass? <==> Signed(auth, caller) && !s.initialized
    ensures Check(s, OnGuardTx(auth, AddAdmin(caller, admin))).Pass? <==> !s.guard.paused && ByAdmin(s, auth, caller)
    ensures Check(s, OnGuardTx(auth, RemoveAdmin(caller, admin))).Pass?
      <==> !s.guard.paused && ByAdmin(s, auth, caller)
    ensures Check(s, OnGuardTx(auth, EmergencyPause(caller))).Pass? <==> ByAdmin(s, auth, caller)
    ensures Check(s, OnGuardTx(auth, SetThreshold(caller, threshold))).Pass? <==> ByAdmin(s, auth, caller)
    ensures Check(s, OnGuardTx(auth, SetTimelock(caller, seconds))).Pass? <==> ByAdmin(s, auth, caller)
  {
  }

  /** Who approved in the round now counted: as the approvers, but the last round is never left. */
  ghost function RoundApprovers(txs: seq<Tx>): set<Address> {
    if txs == [] then {} else
      var before, tx := txs[..|txs| - 1], txs[|txs| - 1];
      if Lifts(Run(GENESIS, before), tx) then (if Unpauses(before) < U32_MAX then {} else RoundApprovers(before))
      else if Approves(Run(GENESIS, before), tx) then RoundApprovers(before) + {tx.call.op.caller}
      else RoundApprovers(before)
  }

  ghost predicate RoundTold(txs: seq<Tx>, g: PauseGuard) {
    && g.round == (if Unpauses(txs) <= U32_MAX then Unpauses(txs) else U32_MAX)
    && (forall x :: x in g.approvals ==> x.0 <= g.round)
    && (forall a :: (g.round, a) in g.approvals <==> a in RoundApprovers(txs))
  }

  lemma {:induction false} RoundIsToldByCalls(txs: seq<Tx>)
    ensures RoundTold(txs, Run(GENESIS, txs).guard)
    ensures Unpauses(txs) <= U32_MAX ==> RoundApprovers(txs) == Approvers(txs)
  {
    if txs == [] {
    } else {
      RoundIsToldByCalls(txs[..|txs| - 1]);
      GuardStep(Run(GENESIS, txs[..|txs| - 1]), txs[|txs| - 1]);
    }
  }

  /** An approval schedules the unpause exactly when it brings the approvers since the last unpause to the threshold. */
  lemma {:induction false} SchedulesIff(txs: seq<Tx>)
    requires txs != [] && Approves(Run(GENESIS, txs[..|txs| - 1]), txs[|txs| - 1])
    ensures LastScheduling(txs) == Some(|txs| - 1) <==> ThresholdStory(txs[..|txs| - 1]) <= |Approvers(txs)|
  {
    var before, tx := txs[..|txs| - 1], txs[|txs| - 1];
    CounterCountsApprovers(before);
    GovernanceIsToldByCalls(before);
    assert tx.call.op.caller !in Approvers(before);
    LastSchedulingIsPast(before);
  }

  lemma {:induction false} LastSchedulingIsPast(txs: seq<Tx>)
    ensures LastScheduling(txs).Some? ==> LastScheduling(txs).value < |txs|
  {
    if txs == [] {
    } else {
      LastSchedulingIsPast(txs[..|txs| - 1]);
    }
  }

  /** What the approval of an admin would schedule, when it reaches the threshold. */
  ghost predicate ScheduleFits(txs: seq<Tx>) {
    ThresholdStory(txs) <= |Approvers(txs)| + 1 ==> Run(GENESIS, txs).now + TimelockStory(txs) <= U64_MAX
  }

  /**
   Over every run an unpause may be approved by each admin who has not approved in this round
   yet, paused or not, unless the time it schedules cannot be represented.
   */
  lemma {:induction false} ApproveUnpauseSucceedsIff(txs: seq<Tx>, auth: set<Address>, caller: Address)
    ensures Check(Run(GENESIS, txs), OnGuardTx(auth, ApproveUnpause(caller))).Pass? <==>
      Signed(auth, caller) && AdminStory(txs, caller) && caller !in RoundApprovers(txs) && ScheduleFits(txs)
  {
    RoundIsToldByCalls(txs);
    CounterCountsApprovers(txs);
    GovernanceIsToldByCalls(txs);
  }

  /** The last scheduling approval lies at least its timelock back. */
  ghost predicate TimelockOver(txs: seq<Tx>) {
    match LastScheduling(txs)
    case None => false
    case Some(i) =>
      && i < |txs|
      && Run(GENESIS, txs[..i]).now + TimelockStory(txs[..i]) <= Run(GENESIS, txs).now
  }

  /**
   Over every run an unpause goes through exactly when a signing admin calls it, some approval
   since the last unpause reached the threshold in force then, and the timelock in force at
   the last such approval has passed since. It then ends the pause, and nothing but the
   pause guard and the log changes.
   */
  lemma {:induction false} UnpauseSucceedsIff(txs: seq<Tx>, auth: set<Address>, caller: Address)
    ensures var s, tx := Run(GENESIS, txs), OnGuardTx(auth, Unpause(caller));
      && (Check(s, tx).Pass? <==> Signed(auth, caller) && AdminStory(txs, caller) && TimelockOver(txs))
      && (Check(s, tx).Pass? ==>
            && !Next(s, tx).guard.paused && Next(s, tx).guard.scheduled == None
            && Next(s, tx) == s.(guard := Next(s, tx).guard, log := s.log + [EmergencyUnpaused(caller)]))
  {
    ScheduleMeaning(txs);
    GovernanceIsToldByCalls(txs);
    if LastScheduling(txs).Some? {
      GovernanceIsToldByCalls(txs[..LastScheduling(txs).value]);
    }
  }

  /** While paused an admin may move up to 10^15 units at a time to anyone who can hold them. */
  lemma EmergencyWithdrawSucceedsIff(s: State, auth: set<Address>, caller: Address, asset: Address, to: Address,
      amount: i128)
    ensures var tx := OnGuardTx(auth, EmergencyWithdraw(caller, asset, to, amount));
      && (Check(s, tx).Pass? <==>
            && s.guard.paused && ByAdmin(s, auth, caller) && 0 < amount <= 1_000_000_000_000_000
            && amount <= Balance(s.tokens, asset, Contract)
            && (to == Contract || Balance(s.tokens, asset, to) + amount <= I128_MAX))
      && (Check(s, tx).Pass? ==>
            && Next(s, tx) == s.(tokens := Next(s, tx).tokens,
                                 log := s.log + [EmergencyWithdrawn(caller, asset, to, amount)])
            && (to != Contract ==>
                  Balance(Next(s, tx).tokens, asset, to) == Balance(s.tokens, asset, to) + amount))
  {
  }
}
