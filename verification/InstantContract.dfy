/**
 The contract that pays on approval, as the object it is: storage updated step by step,
 rolled back by the host when an entry point fails. Every entry point is proved to be
 one transaction of InstantSpec.
 */
module InstantContract {
  import opened Prelude
  import opened Tokens
  import opened InstantTypes
  import opened InstantSpec
  import InstantPause

  /** An entry point answers with the first failing check and commits only on success. */
  ghost predicate Executes(s: State, s': State, auth: set<Address>, call: Call, r: Verdict) {
    r == Check(s, Tx(auth, call)) && s' == Next(s, Tx(auth, call))
  }

  class EarnQuest {
    var now: u64
    var tokens: Ledger
    var admin: Option<Address>
    var pause: Option<PauseState>
    var quests: map<Symbol, Quest>
    var subs: map<SubmissionKey, Submission>
    var stats: map<Address, UserStats>
    var escrow: map<Symbol, Units>

    function Abs(): State
      reads this
    {
      State(now, tokens, admin, pause, quests, subs, stats, escrow)
    }

    constructor ()
      ensures Abs() == GENESIS
    {
      now, tokens, admin, pause := 0, map[], None, None;
      quests, subs, stats, escrow := map[], map[], map[], map[];
    }

    /** The host's rollback of a failed transaction. */
    method Rollback(saved: State)
      modifies this
      ensures Abs() == saved
    {
      now, tokens, admin, pause := saved.now, saved.tokens, saved.admin, saved.pause;
      quests, subs, stats, escrow := saved.quests, saved.subs, saved.stats, saved.escrow;
    }

    // ----- pause tests -----

    method RequireNotPaused() returns (r: Verdict)
      ensures r == PauseGuard(Abs())
    {
      if pause.None? { return Pass; }
      var p := pause.value;
      if !p.isPaused { return Pass; }
      var activation := p.pauseTimestamp + p.timelockDelay;
      if activation > U64_MAX { return Fail(HostTrap); }
      if now >= activation { return Fail(ContractPaused); }
      return Pass;
    }

    method IsPaused() returns (r: Result<bool, Error>)
      ensures r == InstantPause.IsContractPaused(Abs())
    {
      if pause.None? { return Err(NotInitialized); }
      if !pause.value.isPaused { return Ok(false); }
      var activation := pause.value.pauseTimestamp + pause.value.timelockDelay;
      if activation > U64_MAX { return Err(HostTrap); }
      return Ok(now >= activation);
    }

    method IsWithdrawalAllowed() returns (r: Result<bool, Error>)
      ensures pause.None? ==> r == Err(NotInitialized)
      ensures pause.Some? && !pause.value.isPaused ==> r == Ok(true)
      ensures pause.Some? && pause.value.isPaused ==>
        var end := pause.value.lastPauseTime + pause.value.gracePeriod;
        r == if end > U64_MAX then Err(HostTrap) else Ok(now < end)
    {
      if pause.None? { return Err(NotInitialized); }
      if !pause.value.isPaused { return Ok(true); }
      var end := pause.value.lastPauseTime + pause.value.gracePeriod;
      if end > U64_MAX { return Err(HostTrap); }
      return Ok(now < end);
    }

    // ----- quests -----

    method RegisterQuest(auth: set<Address>, id: Symbol, creator: Address, asset: Address, reward: i128,
                         verifier: Address, deadline: u64, maxParticipants: u32) returns (r: Verdict)
      modifies this
      ensures Executes(old(Abs()), Abs(), auth,
                       OnQuest(Register(id, creator, asset, reward, verifier, deadline, maxParticipants)), r)
    {
      r := RequireNotPaused();
      if r.Fail? { return; }
      if !Signed(auth, creator) { return Fail(HostTrap); }
      if reward <= 0 { return Fail(InvalidRewardAmount); }
      if maxParticipants == 0 { return Fail(InvalidParticipantLimit); }
      if deadline <= now { return Fail(InvalidDeadline); }
      if id in quests { return Fail(QuestAlreadyExists); }
      quests := quests[id := Quest(id, creator, asset, reward, verifier, deadline, Active, maxParticipants, 0)];
    }

    method UpdateQuestStatus(auth: set<Address>, q: Symbol, caller: Address, status: QuestStatus) returns (r: Verdict)
      modifies this
      ensures Executes(old(Abs()), Abs(), auth, OnQuest(UpdateStatus(q, caller, status)), r)
    {
      if !Signed(auth, caller) { return Fail(HostTrap); }
      if q !in quests { return Fail(QuestNotFound); }
      var quest := quests[q];
      if quest.creator != caller { return Fail(Unauthorized); }
      if quest.status == Completed || quest.status == Expired || quest.status == Cancelled {
        return Fail(InvalidStatusTransition);
      }
      quests := quests[q := quest.(status := status)];
      return Pass;
    }

    method ExpireQuest(auth: set<Address>, q: Symbol, caller: Address) returns (r: Verdict)
      modifies this
      ensures Executes(old(Abs()), Abs(), auth, OnQuest(InstantSpec.Expire(q, caller)), r)
    {
      if !Signed(auth, caller) { return Fail(HostTrap); }
      if q !in quests { return Fail(QuestNotFound); }
      var quest := quests[q];
      if quest.creator != caller { return Fail(Unauthorized); }
      if quest.status == Expired { return Fail(InvalidStatusTransition); }
      if quest.status == Completed { return Fail(InvalidStatusTransition); }
      quests := quests[q := quest.(status := Expired)];
      return Pass;
    }

    method CancelQuest(auth: set<Address>, q: Symbol, caller: Address) returns (r: Verdict)
      modifies this
      ensures Executes(old(Abs()), Abs(), auth, OnQuest(Cancel(q, caller)), r)
    {
      if !Signed(auth, caller) { return Fail(HostTrap); }
      if q !in quests { return Fail(QuestNotFound); }
      var quest := quests[q];
      if quest.creator != caller { return Fail(Unauthorized); }
      if quest.status == Completed || quest.status == Expired || quest.status == Cancelled {
        return Fail(InvalidStatusTransition);
      }
      quests := quests[q := quest.(status := Cancelled)];
      return Pass;
    }

    method AutoExpireIfLate(q: Symbol)
      requires q in quests
      modifies this`quests
      ensures quests == if now > old(quests)[q].deadline && old(quests)[q].status.Active?
        then old(quests)[q := old(quests)[q].(status := Expired)] else old(quests)
    {
      if now > quests[q].deadline && quests[q].status == Active {
        quests := quests[q := quests[q].(status := Expired)];
      }
    }

    method AutoCompleteIfFull(q: Symbol)
      requires q in quests
      modifies this`quests
      ensures quests == if Full(old(quests)[q]) && old(quests)[q].status.Active?
        then old(quests)[q := old(quests)[q].(status := Completed)] else old(quests)
    {
      if quests[q].totalClaims >= quests[q].maxParticipants && quests[q].status == Active {
        quests := quests[q := quests[q].(status := Completed)];
      }
    }

    // ----- submissions -----

    method SubmitProof(auth: set<Address>, q: Symbol, u: Address, proof: Hash) returns (r: Verdict)
      modifies this
      ensures Executes(old(Abs()), Abs(), auth, OnQuest(Submit(q, u, proof)), r)
    {
      var saved := Abs();
      r := SubmitSteps(auth, q, u, proof);
      if r.Fail? { Rollback(saved); }
    }

    /** A late submission writes the auto-expiry and is then refused, so the write is always rolled back. */
    method SubmitSteps(auth: set<Address>, q: Symbol, u: Address, proof: Hash) returns (r: Verdict)
      modifies this
      ensures r == SubmitCheck(old(Abs()), auth, q, u)
      ensures r.Pass? ==> Abs() == SubmitEffect(old(Abs()), q, u, proof)
    {
      r := RequireNotPaused();
      if r.Fail? { return; }
      if !Signed(auth, u) { return Fail(HostTrap); }
      if q !in quests { return Fail(QuestNotFound); }
      AutoExpireIfLate(q);
      if quests[q].status != Active { return Fail(QuestNotActive); }
      if now > quests[q].deadline { return Fail(QuestExpired); }
      if quests[q].totalClaims >= quests[q].maxParticipants { return Fail(QuestFull); }
      if (q, u) in subs { return Fail(SubmissionAlreadyExists); }
      subs := subs[(q, u) := Submission(q, u, proof, Pending, now)];
    }

    method ApproveSubmission(auth: set<Address>, q: Symbol, u: Address, v: Address) returns (r: Verdict)
      modifies this
      ensures Executes(old(Abs()), Abs(), auth, OnQuest(Approve(q, u, v)), r)
    {
      var saved := Abs();
      r := ApproveSteps(auth, q, u, v);
      if r.Fail? { Rollback(saved); }
    }

    /** Five writes in a row, re-reading storage in between, amount to the one-step effect. */
    method ApproveSteps(auth: set<Address>, q: Symbol, u: Address, v: Address) returns (r: Verdict)
      modifies this
      ensures r == ApproveCheck(old(Abs()), auth, q, u, v)
      ensures r.Pass? ==> Abs() == ApproveEffect(old(Abs()), auth, q, u, v)
    {
      r := RequireNotPaused();
      if r.Fail? { return; }
      if q !in quests { return Fail(QuestNotFound); }
      r := ValidateEscrowSufficient(q, quests[q].reward);
      if r.Fail? { return; }
      r := ApproveAndCount(auth, q, u, v);
      if r.Fail? { return; }
      assert quests[q].reward == old(quests)[q].reward && quests[q].asset == old(quests)[q].asset;
      assert EscrowOf(Abs(), q) == EscrowOf(old(Abs()), q);
      assert StatsOf(Abs(), u) == StatsOf(old(Abs()), u);
      r := PayAndAward(q, u);
      if r.Fail? { return; }
      assert subs == old(subs)[(q, u) := old(subs)[(q, u)].(status := Paid)];
    }

    /** What follows the approval itself: pay out of escrow, award experience, mark as paid. */
    method PayAndAward(q: Symbol, u: Address) returns (r: Verdict)
      requires q in quests && (q, u) in subs && quests[q].reward <= EscrowOf(Abs(), q)
      modifies this`escrow, this`tokens, this`stats, this`subs
      ensures r == Need(
          CanTransfer(old(tokens), quests[q].asset, Contract, u, quests[q].reward) && StatsHaveRoom(old(Abs()), u),
          HostTrap)
      ensures r.Pass? ==>
        && escrow == old(escrow)[q := EscrowOf(old(Abs()), q) - quests[q].reward]
        && tokens == Transfer(old(tokens), quests[q].asset, Contract, u, quests[q].reward)
        && stats == old(stats)[u := Awarded(StatsOf(old(Abs()), u))]
        && subs == old(subs)[(q, u) := old(subs)[(q, u)].(status := Paid)]
    {
      r := ProcessPayout(q, u);
      if r.Fail? { return; }
      r := AwardXp(u, XP_PER_QUEST);
      if r.Fail? { return; }
      if (q, u) !in subs { return Fail(SubmissionNotFound); }
      subs := subs[(q, u) := subs[(q, u)].(status := Paid)];
    }

    /** Marks the submission approved and counts the claim, completing the quest when that fills it. */
    method ApproveAndCount(auth: set<Address>, q: Symbol, u: Address, v: Address) returns (r: Verdict)
      modifies this`subs, this`quests
      ensures var verdict := VerifierCheck(old(Abs()), auth, q, u, v);
        r == if verdict.Fail? then verdict else Need(!Full(old(quests)[q]), QuestFull)
      ensures r.Pass? ==>
        && subs == old(subs)[(q, u) := old(subs)[(q, u)].(status := Approved)]
        && quests == old(quests)[q := Claimed(old(quests)[q])]
    {
      if !Signed(auth, v) { return Fail(HostTrap); }
      if q !in quests { return Fail(QuestNotFound); }
      if quests[q].verifier != v { return Fail(Unauthorized); }
      if (q, u) !in subs { return Fail(SubmissionNotFound); }
      if subs[(q, u)].status != Pending { return Fail(InvalidSubmissionStatus); }
      if quests[q].totalClaims >= quests[q].maxParticipants { return Fail(QuestFull); }
      subs := subs[(q, u) := subs[(q, u)].(status := Approved)];
      quests := quests[q := quests[q].(totalClaims := quests[q].totalClaims + 1)];
      AutoCompleteIfFull(q);
      assert quests == old(quests)[q := Claimed(old(quests)[q])];
      return Pass;
    }

    method RejectSubmission(auth: set<Address>, q: Symbol, u: Address, v: Address) returns (r: Verdict)
      modifies this
      ensures Executes(old(Abs()), Abs(), auth, OnQuest(Reject(q, u, v)), r)
      ensures r.Pass? <==>
        && Signed(auth, v) && q in quests && quests[q].verifier == v
        && (q, u) in old(subs) && old(subs)[(q, u)].status == Pending
      ensures r.Pass? ==> Abs() == old(Abs()).(subs := old(subs)[(q, u) := old(subs)[(q, u)].(status := Rejected)])
      ensures r.Fail? ==> Abs() == old(Abs())
    {
      if !Signed(auth, v) { return Fail(HostTrap); }
      if q !in quests { return Fail(QuestNotFound); }
      if quests[q].verifier != v { return Fail(Unauthorized); }
      if (q, u) !in subs { return Fail(SubmissionNotFound); }
      if subs[(q, u)].status != Pending { return Fail(InvalidSubmissionStatus); }
      subs := subs[(q, u) := subs[(q, u)].(status := Rejected)];
      return Pass;
    }

    // ----- reputation -----

    method AwardXp(u: Address, xp: u32) returns (r: Verdict)
      modifies this`stats
      ensures r == Need(HasRoomFor(StatsOf(old(Abs()), u), xp), HostTrap)
      ensures r.Pass? ==> stats == old(stats)[u := AwardedXp(StatsOf(old(Abs()), u), xp)]
    {
      var entry := if u in stats then stats[u] else UserStats(0, 1, 0, []);
      if entry.totalXp + xp > U32_MAX { return Fail(HostTrap); }
      entry := entry.(totalXp := entry.totalXp + xp);
      entry := entry.(level := LevelOf(entry.totalXp));
      if entry.questsCompleted == U32_MAX { return Fail(HostTrap); }
      entry := entry.(questsCompleted := entry.questsCompleted + 1);
      stats := stats[u := entry];
      return Pass;
    }

    method GrantBadge(auth: set<Address>, user: Address, badge: Symbol, caller: Address) returns (r: Verdict)
      modifies this
      ensures Executes(old(Abs()), Abs(), auth, OnQuest(InstantSpec.GrantBadge(user, badge, caller)), r)
    {
      r := RequireAdmin(auth, caller);
      if r.Fail? { return; }
      if user !in stats { return Fail(UserStatsNotFound); }
      if badge !in stats[user].badges {
        stats := stats[user := stats[user].(badges := stats[user].badges + [badge])];
      } else {
        assert stats == stats[user := stats[user]];
      }
      return Pass;
    }

    // ----- escrow -----

    method ValidateEscrowSufficient(q: Symbol, required: Units) returns (r: Verdict)
      ensures r == Need(required <= EscrowOf(Abs(), q), InsufficientEscrow)
    {
      var balance := EscrowOf(Abs(), q);
      if balance < required { return Fail(InsufficientEscrow); }
      return Pass;
    }

    method DepositEscrow(auth: set<Address>, q: Symbol, depositor: Address, amount: i128) returns (r: Verdict)
      modifies this
      ensures Executes(old(Abs()), Abs(), auth, OnEscrow(Deposit(q, depositor, amount)), r)
    {
      if !Signed(auth, depositor) { return Fail(HostTrap); }
      if amount <= 0 { return Fail(InvalidEscrowAmount); }
      if q !in quests { return Fail(QuestNotFound); }
      var quest := quests[q];
      if quest.creator != depositor { return Fail(Unauthorized); }
      if quest.status != Active && quest.status != Paused { return Fail(QuestNotActive); }
      if !CanTransfer(tokens, quest.asset, depositor, Contract, amount) { return Fail(HostTrap); }
      var saved := Abs();
      tokens := Transfer(tokens, quest.asset, depositor, Contract, amount);
      var balance := EscrowOf(Abs(), q);
      if balance + amount > I128_MAX {
        Rollback(saved);
        return Fail(HostTrap);
      }
      escrow := escrow[q := balance + amount];
      return Pass;
    }

    method ProcessPayout(q: Symbol, recipient: Address) returns (r: Verdict)
      modifies this`escrow, this`tokens
      ensures r == if q !in quests then Fail(QuestNotFound)
        else if EscrowOf(old(Abs()), q) < quests[q].reward then Fail(InsufficientEscrow)
        else Need(CanTransfer(old(tokens), quests[q].asset, Contract, recipient, quests[q].reward), HostTrap)
      ensures r.Pass? ==>
        && escrow == old(escrow)[q := EscrowOf(old(Abs()), q) - quests[q].reward]
        && tokens == Transfer(old(tokens), quests[q].asset, Contract, recipient, quests[q].reward)
    {
      if q !in quests { return Fail(QuestNotFound); }
      var quest := quests[q];
      r := ValidateEscrowSufficient(q, quest.reward);
      if r.Fail? { return; }
      escrow := escrow[q := EscrowOf(Abs(), q) - quest.reward];
      if !CanTransfer(tokens, quest.asset, Contract, recipient, quest.reward) { return Fail(HostTrap); }
      tokens := Transfer(tokens, quest.asset, Contract, recipient, quest.reward);
      return Pass;
    }

    /** Both exits run this: empty the balance of an ended quest to its creator. */
    method WithdrawSteps(auth: set<Address>, q: Symbol, creator: Address) returns (r: Result<Units, Error>)
      modifies this
      ensures r == Answer(WithdrawCheck(old(Abs()), auth, q, creator), EscrowOf(old(Abs()), q))
      ensures Abs() == Next(old(Abs()), Tx(auth, OnEscrow(Withdraw(q, creator))))
    {
      if !Signed(auth, creator) { return Err(HostTrap); }
      if q !in quests { return Err(QuestNotFound); }
      var quest := quests[q];
      if quest.creator != creator { return Err(Unauthorized); }
      if quest.status != Completed && quest.status != Expired && quest.status != Cancelled {
        return Err(QuestStillActive);
      }
      var balance := EscrowOf(Abs(), q);
      if balance <= 0 { return Err(NoEscrowBalance); }
      if !CanTransfer(tokens, quest.asset, Contract, creator, balance) { return Err(HostTrap); }
      tokens := Transfer(tokens, quest.asset, Contract, creator, balance);
      escrow := escrow[q := 0];
      return Ok(balance);
    }

    method WithdrawUnclaimed(auth: set<Address>, q: Symbol, creator: Address) returns (r: Result<Units, Error>)
      modifies this
      ensures r == Answer(Check(old(Abs()), Tx(auth, OnEscrow(Withdraw(q, creator)))), EscrowOf(old(Abs()), q))
      ensures Abs() == Next(old(Abs()), Tx(auth, OnEscrow(Withdraw(q, creator))))
    {
      r := WithdrawSteps(auth, q, creator);
    }

    method EmergencyWithdraw(auth: set<Address>, q: Symbol, creator: Address) returns (r: Result<Units, Error>)
      modifies this
      ensures r == Answer(Check(old(Abs()), Tx(auth, OnEscrow(InstantSpec.EmergencyWithdraw(q, creator)))),
                          EscrowOf(old(Abs()), q))
      ensures Abs() == Next(old(Abs()), Tx(auth, OnEscrow(InstantSpec.EmergencyWithdraw(q, creator))))
    {
      var paused := IsPaused();
      if paused.Err? { return Err(paused.error); }
      if paused.value {
        var allowed := IsWithdrawalAllowed();
        if allowed.Err? { return Err(allowed.error); }
        if !allowed.value { return Err(EmergencyWindowClosed); }
      }
      r := WithdrawSteps(auth, q, creator);
    }

    // ----- administration -----

    method RequireAdmin(auth: set<Address>, caller: Address) returns (r: Verdict)
      ensures r == AdminCheck(Abs(), auth, caller)
    {
      if !Signed(auth, caller) { return Fail(HostTrap); }
      if admin.None? { return Fail(NotInitialized); }
      if admin.value != caller { return Fail(Unauthorized); }
      return Pass;
    }

    method Initialize(auth: set<Address>, first: Address) returns (r: Verdict)
      modifies this
      ensures Executes(old(Abs()), Abs(), auth, Control(InstantSpec.Initialize(first)), r)
    {
      if !Signed(auth, first) { return Fail(HostTrap); }
      if admin.Some? { return Fail(AlreadyInitialized); }
      admin := Some(first);
      return Pass;
    }

    method UpdateConfig(auth: set<Address>, caller: Address, newAdmin: Option<Address>) returns (r: Verdict)
      modifies this
      ensures Executes(old(Abs()), Abs(), auth, Control(InstantSpec.UpdateConfig(caller, newAdmin)), r)
    {
      r := RequireAdmin(auth, caller);
      if r.Fail? { return; }
      if newAdmin.Some? { admin := newAdmin; }
    }

    method InitializePause(auth: set<Address>, caller: Address, delay: u64, required: u32,
        grace: u64) returns (r: Verdict)
      modifies this
      ensures Executes(old(Abs()), Abs(), auth, Control(InstantSpec.InitializePause(caller, delay, required, grace)), r)
    {
      r := RequireAdmin(auth, caller);
      if r.Fail? { return; }
      pause := Some(PauseState(false, 0, delay, [], required, 0, grace, None));
    }

    method RequestPause(auth: set<Address>, requester: Address, reason: Option<Symbol>) returns (r: Verdict)
      modifies this
      ensures Executes(old(Abs()), Abs(), auth, Control(InstantSpec.RequestPause(requester, reason)), r)
    {
      if !Signed(auth, requester) { return Fail(HostTrap); }
      if pause.None? { return Fail(NotInitialized); }
      var p := pause.value;
      if requester in p.signers { return Fail(AlreadySigned); }
      p := p.(signers := p.signers + [requester]);
      if reason.Some? { p := p.(reason := reason); }
      if |p.signers| == 1 { p := p.(pauseTimestamp := now); }
      if |p.signers| >= p.requiredSignatures { p := p.(isPaused := true, lastPauseTime := now); }
      pause := Some(p);
      return Pass;
    }

    method CancelPauseRequest(auth: set<Address>, caller: Address) returns (r: Verdict)
      modifies this
      ensures Executes(old(Abs()), Abs(), auth, Control(InstantSpec.CancelPauseRequest(caller)), r)
    {
      r := RequireAdmin(auth, caller);
      if r.Fail? { return; }
      if pause.None? { return Fail(NotInitialized); }
      if pause.value.isPaused { return Fail(InvalidPauseState); }
      pause := Some(pause.value.(signers := [], pauseTimestamp := 0, reason := None));
    }

    method UnpauseContract(auth: set<Address>, caller: Address) returns (r: Verdict)
      modifies this
      ensures Executes(old(Abs()), Abs(), auth, Control(Unpause(caller)), r)
    {
      if !Signed(auth, caller) { return Fail(HostTrap); }
      if pause.None? { return Fail(NotInitialized); }
      if admin.None? { return Fail(NotInitialized); }
      if admin.value != caller { return Fail(Unauthorized); }
      if !pause.value.isPaused { return Fail(InvalidPauseState); }
      pause := Some(pause.value.(isPaused := false, pauseTimestamp := 0, signers := [], reason := None));
      return Pass;
    }

    method UpdatePauseConfig(auth: set<Address>, caller: Address, delay: Option<u64>, required: Option<u32>,
                             grace: Option<u64>) returns (r: Verdict)
      modifies this
      ensures Executes(old(Abs()), Abs(), auth,
                       Control(InstantSpec.UpdatePauseConfig(caller, delay, required, grace)), r)
    {
      r := RequireAdmin(auth, caller);
      if r.Fail? { return; }
      if pause.None? { return Fail(NotInitialized); }
      var p := pause.value;
      if delay.Some? { p := p.(timelockDelay := delay.value); }
      if required.Some? { p := p.(requiredSignatures := required.value); }
      if grace.Some? { p := p.(gracePeriod := grace.value); }
      pause := Some(p);
    }
  }
}
