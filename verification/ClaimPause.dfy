/** The emergency pause of the contract with a claim step: what it freezes and what lifting it takes. */
module ClaimPause {
  import opened Prelude
  import opened ClaimTypes
  import opened ClaimSpec
  import opened ClaimInvariant

  // ----- what a pause freezes -----

  /** Nothing that belongs to quests or users differs, and the admins are the same. */
  ghost predicate Frozen(s: State, s': State) {
    && s'.quests == s.quests && s'.questIds == s.questIds && s'.metadata == s.metadata && s'.subs == s.subs
    && s'.stats == s.stats && s'.escrows == s.escrows
    && s'.admins == s.admins && s'.initialized == s.initialized
  }

  lemma PausedRefuses(s: State, tx: Tx)
    requires s.guard.paused && (tx.call.OnQuest? || tx.call.OnEscrow?)
    ensures Check(s, tx).Fail?
  {
    if tx.call.OnQuest? {
      PausedRefusesQuestOp(s, tx.auth, tx.call.quest);
    } else {
      PausedRefusesEscrowOp(s, tx.auth, tx.call.escrow);
    }
  }

  lemma PausedRefusesQuestOp(s: State, auth: set<Address>, op: QuestOp)
    requires s.guard.paused
    ensures QuestCheck(s, auth, op) == Fail(ContractPaused)
  {
  }

  lemma PausedRefusesEscrowOp(s: State, auth: set<Address>, op: EscrowOp)
    requires s.guard.paused
    ensures EscrowCheck(s, auth, op) == Fail(ContractPaused)
  {
  }

  lemma PausedGuardStep(s: State, auth: set<Address>, op: GuardOp)
    requires SetupOk(s) && s.guard.paused && GuardCheck(s, auth, op).Pass?
    ensures Frozen(s, GuardEffect(s, auth, op))
  {
    GuardKeeps(s, auth, op);
  }

  /** Whatever is called on a paused contract, even the unpause itself, leaves all of this as it was. */
  lemma PausedStep(s: State, tx: Tx)
    requires SetupOk(s) && s.guard.paused
    ensures Frozen(s, Next(s, tx))
  {
    if Check(s, tx).Pass? {
      match tx.call
      case OnGuard(op) => PausedGuardStep(s, tx.auth, op);
      case Outside(event) => OutsideKeeps(s, tx.auth, event);
      case _ => PausedRefuses(s, tx);
    }
  }

  /** Every state from the k-th on is paused. */
  ghost predicate PausedSince(txs: seq<Tx>, k: nat) {
    forall j :: k <= j <= |txs| ==> Run(GENESIS, txs[..j]).guard.paused
  }

  lemma {:induction false} PauseFreezes(txs: seq<Tx>, k: nat)
    requires k <= |txs| && PausedSince(txs, k)
    ensures Frozen(Run(GENESIS, txs[..k]), Run(GENESIS, txs))
  {
    if k == |txs| {
      assert txs[..k] == txs;
    } else {
      var before := txs[..|txs| - 1];
      forall j | k <= j <= |before| ensures Run(GENESIS, before[..j]).guard.paused {
        assert before[..j] == txs[..j];
      }
      assert before[..k] == txs[..k];
      PauseFreezes(before, k);
      InvGenesis();
      InvRun(GENESIS, before);
      assert before[..|before|] == before;
      PausedStep(Run(GENESIS, before), txs[|txs| - 1]);
    }
  }

  // ----- the approvals of the current round -----

  predicate Approves(s: State, tx: Tx) {
    tx.call.OnGuard? && tx.call.op.ApproveUnpause? && GuardCheck(s, tx.auth, tx.call.op).Pass?
  }

  predicate Lifts(s: State, tx: Tx) {
    tx.call.OnGuard? && tx.call.op.Unpause? && GuardCheck(s, tx.auth, tx.call.op).Pass?
  }

  /** Who approved since the last accepted unpause. */
  ghost function Approvers(txs: seq<Tx>): set<Address> {
    if txs == [] then {} else
      var before, tx := txs[..|txs| - 1], txs[|txs| - 1];
      if Lifts(Run(GENESIS, before), tx) then {}
      else if Approves(Run(GENESIS, before), tx) then Approvers(before) + {tx.call.op.caller}
      else Approvers(before)
  }

  /** The position of the last approval that scheduled the unpause, since the last accepted unpause. */
  ghost function LastScheduling(txs: seq<Tx>): Option<nat> {
    if txs == [] then None else
      var before, tx := txs[..|txs| - 1], txs[|txs| - 1];
      if Lifts(Run(GENESIS, before), tx) then None
      else if Approves(Run(GENESIS, before), tx) && Schedules(Run(GENESIS, before).guard) then Some(|txs| - 1)
      else LastScheduling(before)
  }

  /** The guard moves only by the operations named here. */
  lemma GuardStep(s: State, tx: Tx)
    ensures var g, g' := s.guard, Next(s, tx).guard;
      if Lifts(s, tx) then g' == Unpaused(g)
      else if Approves(s, tx) then g' == WithApproval(g, s.now, tx.call.op.caller)
      else g' == g.(paused := g'.paused, threshold := g'.threshold, timelock := g'.timelock)
           && (g.paused ==> g'.paused)
  {
    if tx.call.OnGuard? {
      GuardOpStep(s, tx.auth, tx.call.op);
    } else {
      OthersKeepGuard(s, tx);
    }
  }

  lemma GuardOpStep(s: State, auth: set<Address>, op: GuardOp)
    ensures var tx := Tx(auth, OnGuard(op));
      var g, g' := s.guard, Next(s, tx).guard;
      if Lifts(s, tx) then g' == Unpaused(g)
      else if Approves(s, tx) then g' == WithApproval(g, s.now, op.caller)
      else g' == g.(paused := g'.paused, threshold := g'.threshold, timelock := g'.timelock)
           && (g.paused ==> g'.paused)
  {
    if GuardCheck(s, auth, op).Pass? {
      assert Next(s, Tx(auth, OnGuard(op))).guard == GuardAfter(s, auth, op);
    }
  }

  lemma OthersKeepGuard(s: State, tx: Tx)
    requires !tx.call.OnGuard?
    ensures Next(s, tx).guard == s.guard
  {
    if Check(s, tx).Pass? {
      match tx.call
      case OnQuest(op) => QuestOpsKeepGuard(s, tx.auth, op);
      case OnEscrow(op) => EscrowOpsKeep(s, tx.auth, op);
      case Outside(event) => OutsideKeeps(s, tx.auth, event);
    }
  }

  lemma {:induction false} RegistrationsKeepGuard(s: State, creator: Address, items: seq<QuestInput>)
    ensures RegisteredAll(s, creator, items).guard == s.guard
    decreases |items|
  {
    if items == [] {
    } else {
      RegistrationsKeepGuard(Registered(s, creator, items[0]), creator, items[1..]);
    }
  }

  lemma {:induction false} ApprovalsKeepGuard(s: State, v: Address, items: seq<ApprovalInput>)
    requires ApprovalsCheck(s, v, items).Pass?
    ensures ApprovedAll(s, v, items).guard == s.guard
    decreases |items|
  {
    if items == [] {
    } else {
      ApprovalsKeepGuard(ApprovedOne(s, items[0]), v, items[1..]);
    }
  }

  lemma QuestOpsKeepGuard(s: State, auth: set<Address>, op: QuestOp)
    requires QuestCheck(s, auth, op).Pass?
    ensures QuestEffect(s, auth, op).guard == s.guard
  {
    match op
    case RegisterBatch(creator, items) => RegistrationsKeepGuard(s, creator, items);
    case ApproveBatch(v, items) => ApprovalsKeepGuard(s, v, items);
    case _ =>
  }

  /** The counter counts the distinct approvers since the last unpause, in every run however long. */
  lemma {:induction false} CounterCountsApprovers(txs: seq<Tx>)
    ensures var g := Run(GENESIS, txs).guard;
      && g.approvalCount == Saturated(|Approvers(txs)|)
      && forall a :: a in Approvers(txs) ==> (g.round, a) in g.approvals
  {
    if txs == [] {
    } else {
      var before, tx := txs[..|txs| - 1], txs[|txs| - 1];
      CounterCountsApprovers(before);
      GuardStep(Run(GENESIS, before), tx);
      if Approves(Run(GENESIS, before), tx) {
        assert tx.call.op.caller !in Approvers(before);
      }
    }
  }

  /** Approval `k` is by `a`, an admin then, and no accepted unpause follows it. */
  ghost predicate ApprovedAt(txs: seq<Tx>, a: Address, k: nat) {
    && k < |txs| && txs[k].call == OnGuard(ApproveUnpause(a))
    && Approves(Run(GENESIS, txs[..k]), txs[k]) && a in Run(GENESIS, txs[..k]).admins && a in txs[k].auth
    && forall j :: k < j < |txs| ==> !Lifts(Run(GENESIS, txs[..j]), txs[j])
  }

  lemma {:induction false} ApproversApproved(txs: seq<Tx>, a: Address) returns (k: nat)
    requires a in Approvers(txs)
    ensures ApprovedAt(txs, a, k)
  {
    var before, tx := txs[..|txs| - 1], txs[|txs| - 1];
    if Approves(Run(GENESIS, before), tx) && tx.call.op.caller == a {
      k := |before|;
    } else {
      k := ApproversApproved(before, a);
      assert before[..k] == txs[..k];
      forall j | k < j < |txs| ensures !Lifts(Run(GENESIS, txs[..j]), txs[j]) {
        if j < |before| { assert before[..j] == txs[..j]; }
      }
    }
  }

  /** Some approval by `a`, then an admin, has not been followed by an accepted unpause. */
  ghost predicate SignedOff(txs: seq<Tx>, a: Address) {
    exists k :: ApprovedAt(txs, a, k)
  }

  /**
   Approval `i` brought the approvers since the last unpause to the threshold in force,
   and the unpause waits for that moment plus the timelock in force.
   */
  ghost predicate ScheduledBy(txs: seq<Tx>, i: nat, scheduled: Option<u64>) {
    && i < |txs| && Approves(Run(GENESIS, txs[..i]), txs[i])
    && var s := Run(GENESIS, txs[..i]);
       && scheduled.Some? && scheduled.value == s.now + s.guard.timelock
       && s.guard.threshold <= |Approvers(txs[..i + 1])|
  }

  lemma {:induction false} ScheduledByNow(txs: seq<Tx>)
    requires txs != []
    requires var s := Run(GENESIS, txs[..|txs| - 1]); Approves(s, txs[|txs| - 1]) && Schedules(s.guard)
    ensures ScheduledBy(txs, |txs| - 1, Run(GENESIS, txs).guard.scheduled)
  {
    GuardStep(Run(GENESIS, txs[..|txs| - 1]), txs[|txs| - 1]);
    assert txs[..|txs|] == txs;
    CounterCountsApprovers(txs);
  }

  lemma {:induction false} ScheduledByEarlier(txs: seq<Tx>, i: nat, scheduled: Option<u64>)
    requires txs != [] && ScheduledBy(txs[..|txs| - 1], i, scheduled)
    ensures ScheduledBy(txs, i, scheduled)
  {
    var before := txs[..|txs| - 1];
    assert before[..i] == txs[..i] && before[..i + 1] == txs[..i + 1];
  }

  /** The scheduled time always goes back to the last scheduling approval. */
  lemma {:induction false} ScheduleMeaning(txs: seq<Tx>)
    ensures match LastScheduling(txs)
      case None => Run(GENESIS, txs).guard.scheduled == None
      case Some(i) => ScheduledBy(txs, i, Run(GENESIS, txs).guard.scheduled)
  {
    if txs == [] {
    } else {
      var before, tx := txs[..|txs| - 1], txs[|txs| - 1];
      var s := Run(GENESIS, before);
      ScheduleMeaning(before);
      GuardStep(s, tx);
      if !Lifts(s, tx) {
        if Approves(s, tx) && Schedules(s.guard) {
          ScheduledByNow(txs);
        } else if LastScheduling(before).Some? {
          ScheduledByEarlier(txs, LastScheduling(before).value, s.guard.scheduled);
        }
      }
    }
  }

  /** Every approver counted up to position `i` signed as an admin, with no unpause in between. */
  ghost predicate AllSigned(txs: seq<Tx>, i: nat)
    requires i < |txs|
  {
    var signing := txs[..i + 1];
    forall a :: a in Approvers(signing) ==> SignedOff(signing, a)
  }

  lemma {:induction false} ApproversSigned(txs: seq<Tx>, i: nat)
    requires i < |txs|
    ensures AllSigned(txs, i)
  {
    var signing := txs[..i + 1];
    forall a | a in Approvers(signing) ensures SignedOff(signing, a) {
      var k := ApproversApproved(signing, a);
    }
  }

  /**
   A pause is lifted only by an admin's unpause. Before it, a scheduling approval brought
   the distinct approvers since the last unpause to at least the threshold in force then,
   and at least the timelock in force then has passed since; each of those approvers
   signed as an admin. This holds over every run, past any number of rounds.
   */
  lemma {:induction false} UnpauseSafety(txs: seq<Tx>, tx: Tx)
    requires Run(GENESIS, txs).guard.paused && !Next(Run(GENESIS, txs), tx).guard.paused
    ensures Lifts(Run(GENESIS, txs), tx)
    ensures tx.call.op.caller in Run(GENESIS, txs).admins && tx.call.op.caller in tx.auth
    ensures match LastScheduling(txs)
      case None => false
      case Some(i) =>
        && i < |txs| && Approves(Run(GENESIS, txs[..i]), txs[i])
        && var s := Run(GENESIS, txs[..i]);
           && s.now + s.guard.timelock <= Run(GENESIS, txs).now
           && s.guard.threshold <= |Approvers(txs[..i + 1])|
           && AllSigned(txs, i)
  {
    GuardStep(Run(GENESIS, txs), tx);
    ScheduleMeaning(txs);
    if LastScheduling(txs).Some? {
      ApproversSigned(txs, LastScheduling(txs).value);
    }
  }

  /** An approver who signed while the pause was on is still an admin when it is lifted. */
  lemma {:induction false} SignersDuringPauseStayAdmins(txs: seq<Tx>, a: Address, k: nat)
    requires ApprovedAt(txs, a, k) && PausedSince(txs, k)
    ensures a in Run(GENESIS, txs).admins
  {
    PauseFreezes(txs, k);
  }

  // ----- rounds -----

  /** The stored approvals of one round. */
  function ApprovedIn(g: PauseGuard, round: u32): set<(u32, Address)> {
    set x | x in g.approvals && x.0 == round
  }

  /** The counter caches the size of the current round's approvals, and no later round has any. */
  ghost predicate CounterOk(g: PauseGuard) {
    && g.approvalCount == Saturated(|ApprovedIn(g, g.round)|)
    && forall x :: x in g.approvals ==> x.0 <= g.round
  }

  /** How many unpauses a run performs. */
  ghost function Unpauses(txs: seq<Tx>): nat {
    if txs == [] then 0 else
      Unpauses(txs[..|txs| - 1]) + if Lifts(Run(GENESIS, txs[..|txs| - 1]), txs[|txs| - 1]) then 1 else 0
  }

  lemma CounterOkApprove(g: PauseGuard, now: u64, caller: Address)
    requires CounterOk(g) && (g.round, caller) !in g.approvals
    requires Schedules(g) ==> now + g.timelock <= U64_MAX
    ensures CounterOk(WithApproval(g, now, caller))
  {
    assert ApprovedIn(WithApproval(g, now, caller), g.round) == ApprovedIn(g, g.round) + {(g.round, caller)};
  }

  lemma CounterOkLift(g: PauseGuard)
    requires CounterOk(g)
    ensures g.round < U32_MAX ==> CounterOk(Unpaused(g)) && ApprovedIn(Unpaused(g), Unpaused(g).round) == {}
    ensures g.round == U32_MAX ==> (CounterOk(Unpaused(g)) <==> ApprovedIn(g, g.round) == {})
  {
    assert g.round == U32_MAX ==> ApprovedIn(Unpaused(g), g.round) == ApprovedIn(g, g.round);
  }

  /**
   For as many unpauses as the round counter can tell apart, counter and stored approvals
   agree, so bumping the round really forgets all approvals at once.
   */
  lemma {:induction false} CounterMatchesApprovals(txs: seq<Tx>)
    requires Unpauses(txs) <= U32_MAX
    ensures Run(GENESIS, txs).guard.round == Unpauses(txs) && CounterOk(Run(GENESIS, txs).guard)
  {
    if txs == [] {
      assert ApprovedIn(GENESIS.guard, 0) == {};
    } else {
      var before, tx := txs[..|txs| - 1], txs[|txs| - 1];
      var s := Run(GENESIS, before);
      CounterMatchesApprovals(before);
      GuardStep(s, tx);
      CounterOkLift(s.guard);
      if Approves(s, tx) {
        CounterOkApprove(s.guard, s.now, tx.call.op.caller);
      } else if !Lifts(s, tx) {
        assert ApprovedIn(Next(s, tx).guard, s.guard.round) == ApprovedIn(s.guard, s.guard.round);
      }
    }
  }

  /** In the last round approvals are never forgotten: who approved in it can approve no more. */
  lemma {:induction false} LastRoundIsForever(s: State, txs: seq<Tx>, a: Address, auth: set<Address>)
    requires s.guard.round == U32_MAX && (s.guard.round, a) in s.guard.approvals
    ensures Run(s, txs).guard.round == U32_MAX && (s.guard.round, a) in Run(s, txs).guard.approvals
    ensures GuardCheck(Run(s, txs), auth, ApproveUnpause(a)).Fail?
  {
    if txs == [] {
    } else {
      LastRoundIsForever(s, txs[..|txs| - 1], a, auth);
      GuardStep(Run(s, txs[..|txs| - 1]), txs[|txs| - 1]);
    }
  }
}
