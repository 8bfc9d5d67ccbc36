/** The multi-signature pause of the contract that pays on approval, over whole runs. */
module InstantPause {
  import opened Prelude
  import opened InstantTypes
  import opened InstantSpec

  /** Signers are distinct; a marked pause has signers and happened in clock order. */
  ghost predicate PauseOk(s: State) {
    s.pause.Some? ==>
      var p := s.pause.value;
      && (forall i, j :: 0 <= i < j < |p.signers| ==> p.signers[i] != p.signers[j])
      && (p.signers != [] ==> p.pauseTimestamp <= s.now)
      && (p.isPaused ==> p.signers != [] && p.pauseTimestamp <= p.lastPauseTime <= s.now)
  }

  lemma PauseOkRequest(s: State, requester: Address, reason: Option<Symbol>)
    requires PauseOk(s) && s.pause.Some? && requester !in s.pause.value.signers
    ensures PauseOk(s.(pause := Some(PauseRequested(s.pause.value, s.now, requester, reason))))
  {
  }

  lemma PauseOkControl(s: State, auth: set<Address>, op: ControlOp)
    requires PauseOk(s) && ControlCheck(s, auth, op).Pass?
    ensures PauseOk(s.(pause := PauseAfter(s, op)))
  {
    if op.RequestPause? {
      PauseOkRequest(s, op.requester, op.reason);
    }
  }

  lemma PauseOkStep(s: State, tx: Tx)
    requires PauseOk(s)
    ensures PauseOk(Next(s, tx))
  {
    if Check(s, tx).Pass? {
      if tx.call.Control? {
        PauseOkControl(s, tx.auth, tx.call.op);
      } else {
        OnlyControlMovesPause(s, tx);
      }
    }
  }

  lemma QuestStepKeepsPause(s: State, auth: set<Address>, op: QuestOp)
    requires QuestCheck(s, auth, op).Pass?
    ensures QuestEffect(s, auth, op).pause == s.pause && QuestEffect(s, auth, op).now == s.now
  {
  }

  lemma OnlyControlMovesPause(s: State, tx: Tx)
    requires !tx.call.Control?
    ensures Next(s, tx).pause == s.pause && s.now <= Next(s, tx).now
  {
    if Check(s, tx).Pass? {
      match tx.call
      case OnQuest(op) => QuestStepKeepsPause(s, tx.auth, op);
      case OnEscrow(op) => assert EscrowEffect(s, tx.auth, op).pause == s.pause;
      case Outside(_) =>
    }
  }

  lemma {:induction false} PauseTimeline(txs: seq<Tx>)
    ensures PauseOk(Run(GENESIS, txs))
  {
    if txs == [] {
    } else {
      PauseTimeline(txs[..|txs| - 1]);
      PauseOkStep(Run(GENESIS, txs[..|txs| - 1]), txs[|txs| - 1]);
    }
  }

  // ----- the two copies of the test -----

  /** The query copy of the pause test, which wants a configured pause. */
  function IsContractPaused(s: State): Result<bool, Error> {
    if s.pause.None? then Err(NotInitialized)
    else if !s.pause.value.isPaused then Ok(false)
    else if s.pause.value.pauseTimestamp + s.pause.value.timelockDelay > U64_MAX then Err(HostTrap)
    else Ok(s.now >= s.pause.value.pauseTimestamp + s.pause.value.timelockDelay)
  }

  /** Query and guard agree once a pause is configured; before that the guard lets everything pass. */
  lemma PauseTestsAgree(s: State)
    ensures s.pause.Some? ==>
      && (IsContractPaused(s) == Ok(true) <==> PauseGuard(s) == Fail(ContractPaused))
      && (IsContractPaused(s) == Ok(false) <==> PauseGuard(s) == Pass)
    ensures s.pause.None? ==> IsContractPaused(s) == Err(NotInitialized) && PauseGuard(s) == Pass
    ensures IsContractPaused(s) == Ok(true) <==> PauseInForce(s)
  {
  }

  // ----- a pause in force stays in force -----

  /** The three admin operations that can lift a pause. */
  predicate Lifts(s: State, tx: Tx) {
    && tx.call.Control? && (tx.call.op.Unpause? || tx.call.op.UpdatePauseConfig? || tx.call.op.InitializePause?)
    && ControlCheck(s, tx.auth, tx.call.op).Pass?
  }

  ghost predicate NeverLifted(s: State, txs: seq<Tx>) {
    txs == [] ||
    (NeverLifted(s, txs[..|txs| - 1]) && !Lifts(Run(s, txs[..|txs| - 1]), txs[|txs| - 1]))
  }

  /** Lifting takes the admin's signature. */
  lemma OnlyAdminLifts(s: State, tx: Tx)
    requires Lifts(s, tx)
    ensures s.admin.Some? && s.admin.value in tx.auth
  {
  }

  ghost predicate SameClaims(s: State, s': State) {
    && s'.quests.Keys == s.quests.Keys && s'.subs.Keys == s.subs.Keys
    && (forall q :: q in s.quests ==> s'.quests[q].totalClaims == s.quests[q].totalClaims)
    && (forall k :: k in s.subs ==> (s'.subs[k].status.Paid? <==> s.subs[k].status.Paid?))
    && s'.stats.Keys == s.stats.Keys
    && (forall u :: u in s.stats ==>
          s'.stats[u].totalXp == s.stats[u].totalXp && s'.stats[u].level == s.stats[u].level
          && s'.stats[u].questsCompleted == s.stats[u].questsCompleted)
  }

  lemma BlockedWhilePaused(s: State, auth: set<Address>, op: QuestOp)
    requires PauseInForce(s) && (op.Register? || op.Submit? || op.Approve?)
    ensures QuestCheck(s, auth, op) == Fail(ContractPaused)
  {
  }

  lemma PausedQuestStep(s: State, auth: set<Address>, op: QuestOp)
    requires PauseInForce(s) && QuestCheck(s, auth, op).Pass?
    ensures SameClaims(s, QuestEffect(s, auth, op))
  {
    if op.Register? || op.Submit? || op.Approve? {
      BlockedWhilePaused(s, auth, op);
    }
  }

  lemma PausedControlStep(s: State, auth: set<Address>, op: ControlOp)
    requires PauseOk(s) && PauseInForce(s) && ControlCheck(s, auth, op).Pass?
    requires !op.Unpause? && !op.UpdatePauseConfig? && !op.InitializePause?
    ensures PauseInForce(s.(admin := AdminAfter(s, op), pause := PauseAfter(s, op)))
  {
  }

  lemma PausedStep(s: State, tx: Tx)
    requires PauseOk(s) && PauseInForce(s) && !Lifts(s, tx)
    ensures PauseInForce(Next(s, tx)) && SameClaims(s, Next(s, tx))
  {
    if Check(s, tx).Pass? {
      match tx.call
      case OnQuest(op) =>
        PausedQuestStep(s, tx.auth, op);
        OnlyControlMovesPause(s, tx);
      case Control(op) => PausedControlStep(s, tx.auth, op);
      case _ => OnlyControlMovesPause(s, tx);
    }
  }

  /**
   Once in force, the pause stays in force for the rest of any run in which no admin lifts
   it, and in all that time no quest, submission, claim, payment or experience is added.
   */
  lemma {:induction false} PauseFreezesClaims(s: State, txs: seq<Tx>)
    requires PauseOk(s) && PauseInForce(s) && NeverLifted(s, txs)
    ensures PauseOk(Run(s, txs)) && PauseInForce(Run(s, txs)) && SameClaims(s, Run(s, txs))
  {
    if txs == [] {
    } else {
      var before := Run(s, txs[..|txs| - 1]);
      PauseFreezesClaims(s, txs[..|txs| - 1]);
      PauseOkStep(before, txs[|txs| - 1]);
      PausedStep(before, txs[|txs| - 1]);
    }
  }

  // ----- how a pause begins -----

  /**
   A pause is marked only by a request that brings the distinct signers to the number
   required then; it is in force at once exactly when the delay since the first
   signature has already run out.
   */
  lemma PauseNeedsSignatures(s: State, tx: Tx)
    requires PauseOk(s) && s.pause.Some? && !s.pause.value.isPaused
    requires Next(s, tx).pause.Some? && Next(s, tx).pause.value.isPaused
    ensures tx.call.Control? && tx.call.op.RequestPause?
    ensures var p := Next(s, tx).pause.value;
      && |p.signers| >= s.pause.value.requiredSignatures
      && p.signers == s.pause.value.signers + [tx.call.op.requester]
      && p.lastPauseTime == s.now
      && p.pauseTimestamp == (if s.pause.value.signers == [] then s.now else s.pause.value.pauseTimestamp)
      && (PauseInForce(Next(s, tx)) <==> p.pauseTimestamp + p.timelockDelay <= s.now)
  {
    if !tx.call.Control? {
      OnlyControlMovesPause(s, tx);
    }
  }
}
