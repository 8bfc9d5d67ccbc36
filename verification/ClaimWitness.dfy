/**
 Concrete runs of the contract with a claim step that show which guarantees it does not
 give. Each stands beside the theorem that says exactly when the guarantee does hold:
 PaidTwice beside ClaimLifecycle.ClaimsCounted, ApprovedButNotPayable beside
 ClaimLedger.ClaimSucceedsIff, RefundCanFail beside ClaimLedger.RefundSucceedsIff and
 ClaimRefunds.CoveredIffAllRefundable, QuorumMayPredatePause beside
 ClaimQuorum.QuorumGivenDuringPauseIff and ApproversStillAdminsIff, LastRoundLocksOut
 beside ClaimPause.LastRoundIsForever and ClaimPause.CounterOkLift.
 */
module ClaimWitness {
  import opened Prelude
  import opened Tokens
  import opened ClaimTypes
  import opened ClaimSpec
  import ClaimPause

  const CREATOR := Account(1)
  const VERIFIER := Account(2)
  const ALICE := Account(3)
  const BOB := Account(4)
  const ASSET := Account(5)

  const ALL: set<Address> := {CREATOR, VERIFIER, ALICE, BOB}

  function OnQ(op: QuestOp): Tx {
    Tx(ALL, OnQuest(op))
  }

  function OnE(op: EscrowOp): Tx {
    Tx(ALL, OnEscrow(op))
  }

  function OnG(op: GuardOp): Tx {
    Tx(ALL, OnGuard(op))
  }

  function Fund(to: Address, units: Units): Tx {
    Tx({}, Outside(Issue(ASSET, to, units)))
  }

  /** Quest `q` pays 10 of the asset. */
  function Open(q: Symbol): Tx {
    OnQ(Register(CREATOR, QuestInput(q, ASSET, 10, VERIFIER, 100)))
  }

  function QuestAt(q: Symbol, status: QuestStatus, claims: u32): Quest {
    Quest(q, CREATOR, ASSET, 10, VERIFIER, 100, status, claims)
  }

  function Prove(q: Symbol, u: Address): Tx {
    OnQ(Submit(q, u, 7))
  }

  function Proof(q: Symbol, u: Address, status: SubmissionStatus): Submission {
    Submission(q, u, 7, status, 0)
  }

  function Accept(items: seq<ApprovalInput>): Tx {
    OnQ(ApproveBatch(VERIFIER, items))
  }

  function Cash(q: Symbol, u: Address): Tx {
    OnQ(Claim(q, u))
  }

  /** A run extended by one transaction. */
  lemma {:induction false} Then(txs: seq<Tx>, tx: Tx)
    ensures Run(GENESIS, txs + [tx]) == Next(Run(GENESIS, txs), tx)
  {
    assert (txs + [tx])[..|txs|] == txs;
  }

  // ----- a second payment for one quest -----

  function Stage(pool: Units, alice: Units, status: SubmissionStatus, claims: u32, log: seq<Event>): State
    requires claims <= 2
  {
    GENESIS.(
      tokens := if alice == 0 then map[(ASSET, Contract) := pool]
                else map[(ASSET, Contract) := pool, (ASSET, ALICE) := alice],
      quests := map["q" := QuestAt("q", Active, claims)], questIds := ["q"],
      subs := map[("q", ALICE) := Proof("q", ALICE, status)],
      stats := if claims == 0 then map[] else map[ALICE := UserStats(100 * claims, 1, claims, [])],
      log := log)
  }

  lemma {:induction false} FirstProof() returns (txs: seq<Tx>)
    ensures Run(GENESIS, txs) == Stage(20, 0, Pending, 0, Run(GENESIS, txs).log)
  {
    var s1 := Next(GENESIS, Fund(Contract, 20));
    assert s1 == GENESIS.(tokens := map[(ASSET, Contract) := 20]);
    var s2 := Next(s1, Open("q"));
    assert s2 == s1.(quests := map["q" := QuestAt("q", Active, 0)], questIds := ["q"], log := s2.log);
    var s3 := Next(s2, Prove("q", ALICE));
    assert s3 == s2.(subs := map[("q", ALICE) := Proof("q", ALICE, Pending)], log := s3.log);
    txs := [];
    Then([], Fund(Contract, 20));
    Then([Fund(Contract, 20)], Open("q"));
    Then([Fund(Contract, 20), Open("q")], Prove("q", ALICE));
    txs := [Fund(Contract, 20)] + [Open("q")] + [Prove("q", ALICE)];
  }

  lemma {:induction false} AcceptStage(pool: Units, alice: Units, claims: u32, log: seq<Event>)
    requires claims <= 2
    ensures var s' := Next(Stage(pool, alice, Pending, claims, log), Accept([ApprovalInput("q", ALICE)]));
      s' == Stage(pool, alice, SubmissionStatus.Approved, claims, s'.log)
  {
    var items := [ApprovalInput("q", ALICE)];
    var s := Stage(pool, alice, Pending, claims, log);
    assert items[1..] == [];
    assert ApprovalCheck(s, VERIFIER, items[0]).Pass?;
    assert ApprovedAll(s, VERIFIER, items) == ApprovedOne(s, items[0]);
    assert ApprovedOne(s, items[0]).subs == Stage(pool, alice, SubmissionStatus.Approved, claims, log).subs;
  }

  lemma {:induction false} CashStage(pool: Units, alice: Units, claims: u32, log: seq<Event>)
    requires claims < 2 && 10 <= pool && alice <= 100
    ensures var s' := Next(Stage(pool, alice, SubmissionStatus.Approved, claims, log), Cash("q", ALICE));
      s' == Stage(pool - 10, alice + 10, Paid, claims + 1, s'.log)
  {
    var s := Stage(pool, alice, SubmissionStatus.Approved, claims, log);
    var s' := ClaimEffect(s, ALL, "q", ALICE);
    assert s'.tokens == map[(ASSET, Contract) := pool - 10, (ASSET, ALICE) := alice + 10];
    assert s'.stats == map[ALICE := UserStats(100 * (claims + 1), 1, claims + 1, [])];
    assert s'.escrows == map[];
  }

  lemma {:induction false} ProveStage(pool: Units, alice: Units, status: SubmissionStatus, claims: u32, log: seq<Event>)
    requires claims <= 2
    ensures var s' := Next(Stage(pool, alice, status, claims, log), Prove("q", ALICE));
      s' == Stage(pool, alice, Pending, claims, s'.log)
  {
  }

  /** One round: the pending proof is accepted and the reward claimed. */
  lemma {:induction false} Round(done: seq<Tx>, pool: Units, alice: Units, claims: u32) returns (txs: seq<Tx>)
    requires claims < 2 && 10 <= pool && alice <= 100
    requires Run(GENESIS, done) == Stage(pool, alice, Pending, claims, Run(GENESIS, done).log)
    ensures Run(GENESIS, txs) == Stage(pool - 10, alice + 10, Paid, claims + 1, Run(GENESIS, txs).log)
  {
    var accepted := done + [Accept([ApprovalInput("q", ALICE)])];
    Then(done, Accept([ApprovalInput("q", ALICE)]));
    AcceptStage(pool, alice, claims, Run(GENESIS, done).log);
    Then(accepted, Cash("q", ALICE));
    CashStage(pool, alice, claims, Run(GENESIS, accepted).log);
    txs := accepted + [Cash("q", ALICE)];
  }

  /** A reachable state in which Alice holds twice the reward of the only quest there is. */
  lemma {:induction false} PaidTwice() returns (txs: seq<Tx>)
    ensures var s := Run(GENESIS, txs);
      s == Stage(0, 20, Paid, 2, s.log) && Balance(s.tokens, ASSET, ALICE) == 20 == 2 * s.quests["q"].reward
  {
    txs := FirstProof();
    txs := Round(txs, 20, 0, 0);
    Then(txs, Prove("q", ALICE));
    ProveStage(10, 10, Paid, 1, Run(GENESIS, txs).log);
    txs := Round(txs + [Prove("q", ALICE)], 10, 10, 1);
  }

  // ----- escrow promises -----

  /** Quest `q` with an escrow of exactly one reward. */
  function Funded(log: seq<Event>): State {
    GENESIS.(
      tokens := map[(ASSET, CREATOR) := 0, (ASSET, Contract) := 10],
      quests := map["q" := QuestAt("q", Active, 0)], questIds := ["q"],
      escrows := map["q" := EscrowInfo("q", CREATOR, ASSET, 10, 0, 0, true, 0, 1)],
      log := log)
  }

  lemma FundSteps()
    ensures var s := Next(Next(Next(GENESIS, Fund(CREATOR, 10)), Open("q")), OnE(Deposit("q", CREATOR, ASSET, 10)));
      s == Funded(s.log)
  {
    var s1 := Next(GENESIS, Fund(CREATOR, 10));
    assert s1 == GENESIS.(tokens := map[(ASSET, CREATOR) := 10]);
    var s2 := Next(s1, Open("q"));
    assert s2 == s1.(quests := map["q" := QuestAt("q", Active, 0)], questIds := ["q"], log := s2.log);
    DepositStep(s2);
  }

  lemma DepositStep(s: State)
    requires s == GENESIS.(tokens := map[(ASSET, CREATOR) := 10],
                           quests := map["q" := QuestAt("q", Active, 0)], questIds := ["q"], log := s.log)
    ensures var s' := Next(s, OnE(Deposit("q", CREATOR, ASSET, 10))); s' == Funded(s'.log)
  {
    var op := Deposit("q", CREATOR, ASSET, 10);
    assert DepositCheck(s, ALL, op).Pass?;
    assert EscrowEffect(s, ALL, op).tokens == Funded(s.log).tokens;
    assert EscrowEffect(s, ALL, op).escrows == Funded(s.log).escrows;
  }

  lemma {:induction false} FundQuest() returns (txs: seq<Tx>)
    ensures Run(GENESIS, txs) == Funded(Run(GENESIS, txs).log)
  {
    var fund, open, deposit := Fund(CREATOR, 10), Open("q"), OnE(Deposit("q", CREATOR, ASSET, 10));
    FundSteps();
    Then([], fund);
    Then([fund], open);
    Then([fund, open], deposit);
    txs := [fund] + [open] + [deposit];
  }

  function BothProved(status: SubmissionStatus, log: seq<Event>): State {
    Funded(log).(subs := map[("q", ALICE) := Proof("q", ALICE, status), ("q", BOB) := Proof("q", BOB, status)])
  }

  lemma {:induction false} ProveBoth(log: seq<Event>)
    ensures var s := Next(Next(Funded(log), Prove("q", ALICE)), Prove("q", BOB));
      s == BothProved(Pending, s.log)
  {
    var s1 := Next(Funded(log), Prove("q", ALICE));
    assert s1 == Funded(log).(subs := map[("q", ALICE) := Proof("q", ALICE, Pending)], log := s1.log);
  }

  lemma {:induction false} AcceptBoth(log: seq<Event>)
    ensures var s := Next(BothProved(Pending, log), Accept([ApprovalInput("q", ALICE), ApprovalInput("q", BOB)]));
      s == BothProved(SubmissionStatus.Approved, s.log)
  {
    var a, b := ApprovalInput("q", ALICE), ApprovalInput("q", BOB);
    var s := BothProved(Pending, log);
    var s1 := ApprovedOne(s, a);
    assert [a, b][1..] == [b] && [b][1..] == [];
    assert ApprovalCheck(s, VERIFIER, a).Pass? && ApprovalCheck(s1, VERIFIER, b).Pass?;
    assert ApprovalsCheck(s1, VERIFIER, [b]).Pass?;
    assert ApprovedAll(s1, VERIFIER, [b]) == ApprovedOne(s1, b);
    assert ApprovedAll(s, VERIFIER, [a, b]) == ApprovedAll(s1, VERIFIER, [b]);
    assert ApprovedOne(s1, b) == BothProved(SubmissionStatus.Approved, log);
  }

  lemma {:induction false} FirstClaim(log: seq<Event>)
    ensures var s := Next(BothProved(SubmissionStatus.Approved, log), Cash("q", ALICE));
      && !s.guard.paused && "q" in s.quests && s.quests["q"] == QuestAt("q", Active, 1)
      && ("q", BOB) in s.subs && s.subs[("q", BOB)].status.Approved?
      && "q" in s.escrows && s.escrows["q"] == PaidFromEscrow(Funded(log).escrows["q"], 10)
  {
    assert ClaimCheck(BothProved(SubmissionStatus.Approved, log), ALL, "q", ALICE).Pass?;
  }

  lemma {:induction false} EmptyEscrowFailsClaim(s: State, log: seq<Event>)
    requires !s.guard.paused && "q" in s.quests && s.quests["q"] == QuestAt("q", Active, 1)
    requires ("q", BOB) in s.subs && s.subs[("q", BOB)].status.Approved?
    requires "q" in s.escrows && s.escrows["q"] == PaidFromEscrow(Funded(log).escrows["q"], 10)
    ensures Check(s, Cash("q", BOB)) == Fail(InsufficientEscrow)
  {
  }

  lemma {:induction false} SecondClaimFails(log: seq<Event>)
    ensures var s := Next(BothProved(SubmissionStatus.Approved, log), Cash("q", ALICE));
      && ("q", BOB) in s.subs && s.subs[("q", BOB)].status.Approved?
      && Check(s, Cash("q", BOB)) == Fail(InsufficientEscrow)
  {
    FirstClaim(log);
    EmptyEscrowFailsClaim(Next(BothProved(SubmissionStatus.Approved, log), Cash("q", ALICE)), log);
  }

  /** Approval reserves nothing: both approvals pass the escrow check, only one can be claimed. */
  lemma {:induction false} ApprovedButNotPayable() returns (txs: seq<Tx>)
    ensures var s := Run(GENESIS, txs);
      && ("q", BOB) in s.subs && s.subs[("q", BOB)].status.Approved?
      && Check(s, Cash("q", BOB)) == Fail(InsufficientEscrow)
  {
    txs := FundQuest();
    ProveBoth(Run(GENESIS, txs).log);
    Then(txs, Prove("q", ALICE));
    txs := txs + [Prove("q", ALICE)];
    Then(txs, Prove("q", BOB));
    txs := txs + [Prove("q", BOB)];
    txs := AcceptAndCash(txs);
  }

  lemma {:induction false} AcceptAndCash(done: seq<Tx>) returns (txs: seq<Tx>)
    requires Run(GENESIS, done) == BothProved(Pending, Run(GENESIS, done).log)
    ensures var s := Run(GENESIS, txs);
      && ("q", BOB) in s.subs && s.subs[("q", BOB)].status.Approved?
      && Check(s, Cash("q", BOB)) == Fail(InsufficientEscrow)
  {
    var accept := Accept([ApprovalInput("q", ALICE), ApprovalInput("q", BOB)]);
    AcceptBoth(Run(GENESIS, done).log);
    Then(done, accept);
    SecondClaimFails(Run(GENESIS, done + [accept]).log);
    Then(done + [accept], Cash("q", ALICE));
    txs := done + [accept] + [Cash("q", ALICE)];
  }

  // ----- the pooled balance -----

  /** Beside the funded quest, a quest `p` without escrow whose only submission has the given status. */
  function Pooled(status: SubmissionStatus, log: seq<Event>): State {
    Funded(log).(
      quests := map["q" := QuestAt("q", Active, 0), "p" := QuestAt("p", Active, 0)], questIds := ["q", "p"],
      subs := map[("p", ALICE) := Proof("p", ALICE, status)])
  }

  lemma {:induction false} OpenPooled(log: seq<Event>)
    ensures var s := Next(Next(Funded(log), Open("p")), Prove("p", ALICE));
      s == Pooled(Pending, s.log)
  {
    var s1 := Next(Funded(log), Open("p"));
    assert s1 == Funded(log).(
      quests := map["q" := QuestAt("q", Active, 0), "p" := QuestAt("p", Active, 0)], questIds := ["q", "p"],
      log := s1.log);
  }

  lemma {:induction false} AcceptPooled(log: seq<Event>)
    ensures var s := Next(Pooled(Pending, log), Accept([ApprovalInput("p", ALICE)]));
      s == Pooled(SubmissionStatus.Approved, s.log)
  {
    var item := ApprovalInput("p", ALICE);
    var s := Pooled(Pending, log);
    assert [item][1..] == [];
    assert ApprovalCheck(s, VERIFIER, item).Pass?;
    assert ApprovalsCheck(s, VERIFIER, [item]).Pass?;
    assert ApproveBatchCheck(s, ALL, VERIFIER, [item]).Pass?;
    assert ApprovedAll(s, VERIFIER, [item]) == ApprovedOne(s, item);
    assert ApprovedOne(s, item) == Pooled(SubmissionStatus.Approved, log);
  }

  lemma {:induction false} CashPooled(log: seq<Event>)
    ensures var s := Next(Pooled(SubmissionStatus.Approved, log), Cash("p", ALICE));
      && Balance(s.tokens, ASSET, Contract) == 0 && !s.guard.paused
      && s.escrows == Funded(log).escrows && "q" in s.quests && s.quests["q"] == QuestAt("q", Active, 0)
  {
    var s := Pooled(SubmissionStatus.Approved, log);
    assert ClaimCheck(s, ALL, "p", ALICE).Pass?;
  }

  lemma {:induction false} EmptyPoolFailsRefund(s: State, log: seq<Event>)
    requires Balance(s.tokens, ASSET, Contract) == 0 && !s.guard.paused
    requires s.escrows == Funded(log).escrows && "q" in s.quests && s.quests["q"] == QuestAt("q", Active, 0)
    ensures Check(s, OnE(Cancel("q", CREATOR))) == Fail(TransferFailed)
  {
  }

  /** A claim on a quest without escrow can take the tokens another creator's refund needs. */
  lemma {:induction false} RefundCanFail() returns (txs: seq<Tx>)
    ensures Check(Run(GENESIS, txs), OnE(Cancel("q", CREATOR))) == Fail(TransferFailed)
  {
    txs := FundQuest();
    OpenPooled(Run(GENESIS, txs).log);
    Then(txs, Open("p"));
    txs := txs + [Open("p")];
    Then(txs, Prove("p", ALICE));
    txs := txs + [Prove("p", ALICE)];
    AcceptPooled(Run(GENESIS, txs).log);
    Then(txs, Accept([ApprovalInput("p", ALICE)]));
    txs := txs + [Accept([ApprovalInput("p", ALICE)])];
    CashPooled(Run(GENESIS, txs).log);
    Then(txs, Cash("p", ALICE));
    EmptyPoolFailsRefund(Run(GENESIS, txs + [Cash("p", ALICE)]), Run(GENESIS, txs).log);
    txs := txs + [Cash("p", ALICE)];
  }

  // ----- approvals from before the pause -----

  lemma EarlyApprovals()
    ensures var s := Next(Next(Next(Next(GENESIS, OnG(Initialize(CREATOR))), OnG(AddAdmin(CREATOR, ALICE))),
                               OnG(ApproveUnpause(CREATOR))), OnG(ApproveUnpause(ALICE)));
      s == GENESIS.(initialized := true, admins := {CREATOR, ALICE}, log := s.log,
        guard := PauseGuard(false, 0, {(0, CREATOR), (0, ALICE)}, 2, 2, 0, Some(0)))
  {
    var s1 := Next(GENESIS, OnG(Initialize(CREATOR)));
    assert s1 == GENESIS.(initialized := true, admins := {CREATOR}, log := s1.log);
    var s2 := Next(s1, OnG(AddAdmin(CREATOR, ALICE)));
    assert s2 == s1.(admins := {CREATOR, ALICE}, log := s2.log);
    var s3 := Next(s2, OnG(ApproveUnpause(CREATOR)));
    assert s3 == s2.(guard := PauseGuard(false, 0, {(0, CREATOR)}, 1, 2, 0, None), log := s3.log);
  }

  lemma RemoveAndPause(s: State)
    requires s == GENESIS.(initialized := true, admins := {CREATOR, ALICE}, log := s.log,
      guard := PauseGuard(false, 0, {(0, CREATOR), (0, ALICE)}, 2, 2, 0, Some(0)))
    ensures var s' := Next(Next(s, OnG(RemoveAdmin(CREATOR, ALICE))), OnG(EmergencyPause(CREATOR)));
      && s'.guard.paused && s'.admins == {CREATOR} && ClaimPause.Lifts(s', OnG(Unpause(CREATOR)))
  {
    var s1 := Next(s, OnG(RemoveAdmin(CREATOR, ALICE)));
    assert s1 == s.(admins := {CREATOR}, log := s1.log);
  }

  /**
   The approvals that allow an unpause may all come from before the pause, one of them from
   an admin since removed: what UnpauseSafety promises is counted from the last unpause,
   not from the pause.
   */
  lemma {:induction false} QuorumMayPredatePause() returns (txs: seq<Tx>)
    ensures var s := Run(GENESIS, txs);
      && s.guard.paused && s.admins == {CREATOR} && s.guard.threshold == 2
      && ClaimPause.Lifts(s, OnG(Unpause(CREATOR)))
  {
    EarlyApprovals();
    Then([], OnG(Initialize(CREATOR)));
    txs := [] + [OnG(Initialize(CREATOR))];
    Then(txs, OnG(AddAdmin(CREATOR, ALICE)));
    txs := txs + [OnG(AddAdmin(CREATOR, ALICE))];
    Then(txs, OnG(ApproveUnpause(CREATOR)));
    txs := txs + [OnG(ApproveUnpause(CREATOR))];
    Then(txs, OnG(ApproveUnpause(ALICE)));
    txs := txs + [OnG(ApproveUnpause(ALICE))];
    RemoveAndPause(Run(GENESIS, txs));
    Then(txs, OnG(RemoveAdmin(CREATOR, ALICE)));
    txs := txs + [OnG(RemoveAdmin(CREATOR, ALICE))];
    Then(txs, OnG(EmergencyPause(CREATOR)));
    txs := txs + [OnG(EmergencyPause(CREATOR))];
  }

  // ----- the last round -----

  /** One admin, threshold one, no timelock, nothing approved or scheduled in the current round. */
  ghost predicate Ready(s: State, round: u32) {
    && s.admins == {CREATOR} && s.now == 0
    && s.guard == PauseGuard(false, round, s.guard.approvals, 0, 1, 0, None)
    && forall x :: x in s.guard.approvals ==> x.0 < round
  }

  lemma ReadyAtFirst()
    ensures Ready(Next(Next(GENESIS, OnG(Initialize(CREATOR))), OnG(SetThreshold(CREATOR, 1))), 0)
  {
    var s := Next(GENESIS, OnG(Initialize(CREATOR)));
    assert s.admins == {CREATOR} && s.guard == GENESIS.guard;
  }

  /** An approval schedules at once, and the unpause opens the next round. */
  lemma NextRound(s: State, round: u32)
    requires Ready(s, round) && round < U32_MAX
    ensures Ready(Next(Next(s, OnG(ApproveUnpause(CREATOR))), OnG(Unpause(CREATOR))), round + 1)
  {
    assert (round, CREATOR) !in s.guard.approvals;
    assert Check(s, OnG(ApproveUnpause(CREATOR))).Pass?;
    var s1 := Next(s, OnG(ApproveUnpause(CREATOR)));
    assert s1.guard == PauseGuard(false, round, s.guard.approvals + {(round, CREATOR)}, 1, 1, 0, Some(0));
    assert Check(s1, OnG(Unpause(CREATOR))).Pass?;
  }

  /** Every round there is can be reached. */
  lemma {:induction false} RoundReached(n: u32) returns (txs: seq<Tx>)
    ensures Ready(Run(GENESIS, txs), n) && Run(GENESIS, txs).guard.round == n
    decreases n
  {
    if n == 0 {
      Then([], OnG(Initialize(CREATOR)));
      txs := [] + [OnG(Initialize(CREATOR))];
      Then(txs, OnG(SetThreshold(CREATOR, 1)));
      txs := txs + [OnG(SetThreshold(CREATOR, 1))];
      ReadyAtFirst();
    } else {
      txs := RoundReached(n - 1);
      NextRound(Run(GENESIS, txs), n - 1);
      Then(txs, OnG(ApproveUnpause(CREATOR)));
      txs := txs + [OnG(ApproveUnpause(CREATOR))];
      Then(txs, OnG(Unpause(CREATOR)));
      txs := txs + [OnG(Unpause(CREATOR))];
    }
  }

  /** A run after which the only admin has approved in the last round, and can approve again after no later run. */
  lemma {:induction false} LastRoundLocksOut() returns (txs: seq<Tx>)
    ensures Run(GENESIS, txs).guard.round == U32_MAX && Run(GENESIS, txs).admins == {CREATOR}
    ensures forall later: seq<Tx>, auth ::
      GuardCheck(Run(Run(GENESIS, txs), later), auth, ApproveUnpause(CREATOR)).Fail?
  {
    txs := RoundReached(U32_MAX);
    ApprovesInRound(Run(GENESIS, txs), U32_MAX);
    Then(txs, OnG(ApproveUnpause(CREATOR)));
    txs := txs + [OnG(ApproveUnpause(CREATOR))];
    forall later: seq<Tx>, auth
      ensures GuardCheck(Run(Run(GENESIS, txs), later), auth, ApproveUnpause(CREATOR)).Fail? {
      ClaimPause.LastRoundIsForever(Run(GENESIS, txs), later, CREATOR, auth);
    }
  }

  lemma ApprovesInRound(s: State, round: u32)
    requires Ready(s, round)
    ensures var s' := Next(s, OnG(ApproveUnpause(CREATOR)));
      s'.guard.round == round && (round, CREATOR) in s'.guard.approvals && s'.admins == s.admins
  {
    assert (round, CREATOR) !in s.guard.approvals;
    assert GuardCheck(s, ALL, ApproveUnpause(CREATOR)).Pass?;
    var g := WithApproval(s.guard, s.now, CREATOR);
    assert Next(s, OnG(ApproveUnpause(CREATOR))).guard == g && g.round == round;
  }
}
