/**
 The contract with a claim step, as the object it is: storage updated step by step and
 rolled back by the host when an entry point fails. Every entry point is proved to be
 one transaction of ClaimSpec, every query to return its page of the listing.
 */
module ClaimContract {
  import opened Prelude
  import opened Tokens
  import opened ClaimTypes
  import opened ClaimSpec
  import opened ClaimQueries
  import ClaimBatch

  /** An entry point answers with the first failing check and commits only on success. */
  ghost predicate Executes(s: State, s': State, auth: set<Address>, call: Call, r: Verdict) {
    r == Check(s, Tx(auth, call)) && s' == Next(s, Tx(auth, call))
  }

  // ----- the batches, seen from inside their loops -----

  /**
   Inside the batch loop: storage `now` holds what the first `i` items led to from `s`, their
   events are logged, and the remaining items from here give what all of them give from `s`.
   */
  ghost predicate RegistersLike(s: State, creator: Address, items: seq<QuestInput>, now: State, i: nat)
    requires i <= |items|
  {
    && now.log == s.log + RegisteredEvents(creator, items[..i])
    && ItemsCheck(s, creator, items) == ItemsCheck(now.(log := s.log), creator, items[i..])
    && RegisteredAll(s, creator, items) == RegisteredAll(now.(log := s.log), creator, items[i..])
  }

  lemma {:induction false} RegistersNext(s: State, creator: Address, items: seq<QuestInput>, now: State, i: nat)
    requires i < |items| && RegistersLike(s, creator, items, now, i)
    ensures var verdict := ItemCheck(now, creator, items[i]);
      if verdict.Fail? then ItemsCheck(s, creator, items) == verdict
      else RegistersLike(s, creator, items, RegisteredAndLogged(now, creator, items[i]), i + 1)
  {
    var cur := now.(log := s.log);
    assert items[i..][0] == items[i] && items[i..][1..] == items[i + 1..];
    assert ItemCheck(now, creator, items[i]) == ItemCheck(cur, creator, items[i]);
    assert RegisteredAndLogged(now, creator, items[i]).(log := s.log) == Registered(cur, creator, items[i]);
    assert RegisteredEvents(creator, items[..i + 1]) ==
      RegisteredEvents(creator, items[..i]) + [RegisteredEvent(creator, items[i])];
  }

  function RegisteredAndLogged(s: State, creator: Address, item: QuestInput): State {
    Registered(s, creator, item).(log := s.log + [RegisteredEvent(creator, item)])
  }

  /** The same, inside the loop over approvals. */
  ghost predicate ApprovesLike(s: State, v: Address, items: seq<ApprovalInput>, now: State, i: nat)
    requires i <= |items|
  {
    && now.log == s.log + ApprovedEvents(v, items[..i])
    && ApprovalsCheck(s, v, items) == ApprovalsCheck(now.(log := s.log), v, items[i..])
    && (ApprovalsCheck(s, v, items).Pass? ==>
          ApprovedAll(s, v, items) == ApprovedAll(now.(log := s.log), v, items[i..]))
  }

  lemma {:induction false} ApprovesNext(s: State, v: Address, items: seq<ApprovalInput>, now: State, i: nat)
    requires i < |items| && ApprovesLike(s, v, items, now, i)
    ensures var verdict := ApprovalCheck(now, v, items[i]);
      if verdict.Fail? then ApprovalsCheck(s, v, items) == verdict
      else ApprovesLike(s, v, items, ApprovedAndLogged(now, v, items[i]), i + 1)
  {
    var cur := now.(log := s.log);
    assert items[i..][0] == items[i] && items[i..][1..] == items[i + 1..];
    assert ApprovalCheck(now, v, items[i]) == ApprovalCheck(cur, v, items[i]);
    if ApprovalCheck(now, v, items[i]).Pass? {
      assert ApprovedAndLogged(now, v, items[i]).(log := s.log) == ApprovedOne(cur, items[i]);
      assert ApprovedEvents(v, items[..i + 1]) == ApprovedEvents(v, items[..i]) + [ApprovedEvent(v, items[i])];
    }
  }

  function ApprovedAndLogged(s: State, v: Address, item: ApprovalInput): State
    requires KeyOf(item) in s.subs
  {
    ApprovedOne(s, item).(log := s.log + [ApprovedEvent(v, item)])
  }

  // ----- the two halves of a claim -----

  function PaidOut(s: State, q: Symbol, asset: Address, to: Address, amount: int): State
    requires PayoutCheck(s, q, asset, to, amount).Pass?
  {
    s.(tokens := Transfer(s.tokens, asset, Contract, to, amount),
       escrows := if q in s.escrows then s.escrows[q := PaidFromEscrow(s.escrows[q], amount)] else s.escrows,
       log := s.log + if q in s.escrows then [EscrowPayout(q, to, amount, Available(s.escrows[q]) - amount)] else [])
  }

  function Settled(s: State, q: Symbol, u: Address): State
    requires ClaimableCheck(s, q, u).Pass? && StatsHaveRoom(s, u)
  {
    var quest := s.quests[q];
    var before := StatsOf(s, u);
    var after := Awarded(before);
    s.(subs := s.subs[(q, u) := s.subs[(q, u)].(status := Paid)],
       quests := s.quests[q := quest.(totalClaims := quest.totalClaims + 1)],
       stats := s.stats[u := after],
       log := s.log
         + [RewardClaimed(q, u, quest.asset, quest.reward), XpAwarded(u, XP_PER_CLAIM, after.xp, after.level)]
         + (if after.level > before.level then [LevelUp(u, after.level)] else []))
  }

  lemma ClaimHalves(s: State, auth: set<Address>, q: Symbol, u: Address)
    requires ClaimCheck(s, auth, q, u).Pass?
    ensures var paid := PaidOut(s, q, s.quests[q].asset, u, s.quests[q].reward);
      && ClaimableCheck(paid, q, u).Pass? && StatsHaveRoom(paid, u)
      && Settled(paid, q, u) == ClaimEffect(s, auth, q, u).(log := s.log + ClaimEvents(s, auth, q, u))
  {
    var paid := PaidOut(s, q, s.quests[q].asset, u, s.quests[q].reward);
    assert StatsOf(paid, u) == StatsOf(s, u);
    assert Settled(paid, q, u).log == s.log + ClaimEvents(s, auth, q, u);
  }

  // ----- refunds -----

  function Refunded(s: State, q: Symbol): State
    requires RefundCheck(s, q).Pass?
  {
    s.(tokens := RefundTokens(s, q),
       escrows := if q in s.escrows then s.escrows[q := Closed(s.escrows[q])] else s.escrows,
       log := s.log + RefundEvents(s, q))
  }

  /** As `Executes`, for the entry points that answer with the amount refunded. */
  ghost predicate Refunds(s: State, s': State, auth: set<Address>, op: EscrowOp, r: Result<int, Error>) {
    && r == Answer(Check(s, Tx(auth, OnEscrow(op))), RefundAmount(s, op.quest))
    && s' == Next(s, Tx(auth, OnEscrow(op)))
  }

  // ----- the query loops -----

  /** After reading some ids: the page so far, with the counters the loop keeps beside it. */
  ghost predicate ReadSoFar(quests: map<Symbol, Quest>, ids: seq<Symbol>, query: Query, offset: nat, limit: nat,
                            results: seq<Quest>, matched: int, count: int) {
    && results == Page(Filtered(quests, ids, query), offset, limit)
    && count == |results|
    && matched == |Filtered(quests, ids, query)|
  }

  /** One more id adds at most one quest to the page; none at all once the page is full. */
  lemma {:induction false} ListingStep(quests: map<Symbol, Quest>, ids: seq<Symbol>, query: Query, offset: nat,
      limit: nat, i: nat)
    requires i < |ids|
    ensures var all := Filtered(quests, ids[..i], query);
      var next := Filtered(quests, ids[..i + 1], query);
      && next == (if ids[i] in quests && Matches(query, quests[ids[i]]) then all + [quests[ids[i]]] else all)
      && Page(next, offset, limit) == (if |next| > |all| && |all| >= offset && |all| - offset < limit
                                       then Page(all, offset, limit) + [quests[ids[i]]] else Page(all, offset, limit))
      && (|Page(all, offset, limit)| == limit ==>
            Page(Filtered(quests, ids, query), offset, limit) == Page(all, offset, limit))
  {
    var all := Filtered(quests, ids[..i], query);
    assert ids[..i + 1][..i] == ids[..i];
    if ids[i] in quests { PageSnoc(all, quests[ids[i]], offset, limit); }
    if |Page(all, offset, limit)| == limit {
      FilteredPrefix(quests, ids, query, i);
      FullPage(all, Filtered(quests, ids, query), offset, limit);
    }
  }

  class EarnQuest {
    var now: u64
    var tokens: Ledger
    var initialized: bool
    var admins: set<Address>
    var guard: PauseGuard
    var quests: map<Symbol, Quest>
    var questIds: seq<Symbol>
    var subs: map<SubmissionKey, Submission>
    var stats: map<Address, UserStats>
    var escrows: map<Symbol, EscrowInfo>
    var metadata: map<Symbol, QuestMetadata>
    var log: seq<Event>

    function Abs(): State
      reads this
    {
      State(now, tokens, initialized, admins, guard, quests, questIds, subs, stats, escrows, metadata, log)
    }

    constructor ()
      ensures Abs() == GENESIS
    {
      now, tokens, initialized, admins, guard := GENESIS.now, map[], false, {}, GENESIS.guard;
      quests, questIds, subs, stats, escrows, metadata, log := map[], [], map[], map[], map[], map[], [];
    }

    /** The host's rollback of a failed transaction. */
    method Rollback(saved: State)
      modifies this
      ensures Abs() == saved
    {
      now, tokens, initialized := saved.now, saved.tokens, saved.initialized;
      admins, guard, stats := saved.admins, saved.guard, saved.stats;
      quests, questIds, subs := saved.quests, saved.questIds, saved.subs;
      escrows, metadata, log := saved.escrows, saved.metadata, saved.log;
    }

    // ----- shared tests -----

    method EnterFor(auth: set<Address>, who: Address) returns (r: Verdict)
      ensures r == Entry(Abs(), auth, who)
    {
      if guard.paused { return Fail(ContractPaused); }
      if !Signed(auth, who) { return Fail(HostTrap); }
      return Pass;
    }

    method RequireAdmin(auth: set<Address>, caller: Address) returns (r: Verdict)
      ensures r == AdminCheck(Abs(), auth, caller)
    {
      if !Signed(auth, caller) { return Fail(HostTrap); }
      if caller !in admins { return Fail(Unauthorized); }
      return Pass;
    }

    method ValidateAmount(amount: int) returns (r: Verdict)
      ensures r == AmountCheck(amount)
    {
      if amount <= 0 { return Fail(InvalidRewardAmount); }
      if amount > MAX_REWARD_AMOUNT { return Fail(AmountTooLarge); }
      return Pass;
    }

    method ValidateSufficient(q: Symbol, amount: int) returns (r: Verdict)
      ensures q in escrows ==> r == CoverCheck(Abs(), q, amount)
      ensures q !in escrows ==> r == Fail(EscrowNotFound)
    {
      if q !in escrows { return Fail(EscrowNotFound); }
      var e := escrows[q];
      if !e.active { return Fail(EscrowInactive); }
      if !TotalsFit(e) { return Fail(HostTrap); }
      if e.deposited - e.paidOut - e.refunded < amount { return Fail(InsufficientEscrow); }
      return Pass;
    }

    // ----- registration -----

    method RegisterQuest(auth: set<Address>, creator: Address, item: QuestInput) returns (r: Verdict)
      modifies this
      ensures Executes(old(Abs()), Abs(), auth, OnQuest(Register(creator, item)), r)
    {
      r := EnterFor(auth, creator);
      if r.Fail? { return; }
      if creator == item.verifier { return Fail(InvalidAddress); }
      r := ValidateAmount(item.reward);
      if r.Fail? { return; }
      if item.deadline <= now { return Fail(DeadlineInPast); }
      r := RegisterItem(creator, item);
    }

    /** The storage part of a registration, shared with the batch. */
    method RegisterItem(creator: Address, item: QuestInput) returns (r: Verdict)
      modifies this`quests, this`questIds, this`log
      ensures r == ItemCheck(old(Abs()), creator, item)
      ensures Abs() == if r.Pass? then RegisteredAndLogged(old(Abs()), creator, item) else old(Abs())
    {
      if item.id in quests { return Fail(QuestAlreadyExists); }
      r := ValidateAmount(item.reward);
      if r.Fail? { return; }
      if item.deadline <= now { return Fail(DeadlineInPast); }
      if creator == item.verifier { return Fail(InvalidAddress); }
      quests := quests[item.id :=
        Quest(item.id, creator, item.asset, item.reward, item.verifier, item.deadline, Active, 0)];
      questIds := questIds + [item.id];
      log := log + [RegisteredEvent(creator, item)];
    }

    method RegisterQuestWithMetadata(auth: set<Address>, creator: Address, item: QuestInput, m: QuestMetadata)
      returns (r: Verdict)
      modifies this
      ensures Executes(old(Abs()), Abs(), auth, OnQuest(RegisterDescribed(creator, item, m)), r)
    {
      var saved := Abs();
      r := RegisterQuest(auth, creator, item);
      if r.Fail? { return; }
      r := ValidateMetadata(m);
      if r.Fail? {
        Rollback(saved);
        return;
      }
      metadata := metadata[item.id := m];
    }

    method UpdateQuestMetadata(auth: set<Address>, q: Symbol, updater: Address, m: QuestMetadata) returns (r: Verdict)
      modifies this
      ensures Executes(old(Abs()), Abs(), auth, OnQuest(Describe(q, updater, m)), r)
    {
      r := EnterFor(auth, updater);
      if r.Fail? { return; }
      if q !in quests { return Fail(QuestNotFound); }
      if quests[q].creator != updater && updater !in admins { return Fail(Unauthorized); }
      r := ValidateMetadata(m);
      if r.Fail? { return; }
      metadata := metadata[q := m];
      assert log == log + [];
    }

    /** Tags and requirements are tested one after the other. */
    method ValidateMetadata(m: QuestMetadata) returns (r: Verdict)
      ensures r == MetadataCheck(m)
    {
      if |m.title| > MAX_TITLE { return Fail(StringTooLong); }
      if |m.category| > MAX_CATEGORY { return Fail(StringTooLong); }
      if |m.tags| > MAX_TAGS { return Fail(ArrayTooLong); }
      for i := 0 to |m.tags|
        invariant AllShort(m.tags[..i], MAX_TAG)
      {
        if |m.tags[i]| > MAX_TAG { return Fail(StringTooLong); }
      }
      assert m.tags[..|m.tags|] == m.tags;
      if |m.requirements| > MAX_REQUIREMENTS { return Fail(ArrayTooLong); }
      for i := 0 to |m.requirements|
        invariant AllShort(m.requirements[..i], MAX_REQUIREMENT)
      {
        if |m.requirements[i]| > MAX_REQUIREMENT { return Fail(StringTooLong); }
      }
      assert m.requirements[..|m.requirements|] == m.requirements;
      if m.description.Inline? && |m.description.text| > MAX_INLINE_DESCRIPTION { return Fail(StringTooLong); }
      return Pass;
    }

    method RegisterQuestsBatch(auth: set<Address>, creator: Address, items: seq<QuestInput>) returns (r: Verdict)
      modifies this
      ensures Executes(old(Abs()), Abs(), auth, OnQuest(RegisterBatch(creator, items)), r)
    {
      r := EnterFor(auth, creator);
      if r.Fail? { return; }
      if |items| > MAX_BATCH { return Fail(ArrayTooLong); }
      if |items| == 0 { return Fail(ArrayTooLong); }
      var saved := Abs();
      r := RegisterItems(creator, items);
      if r.Fail? { Rollback(saved); }
    }

    method RegisterItems(creator: Address, items: seq<QuestInput>) returns (r: Verdict)
      modifies this`quests, this`questIds, this`log
      ensures r == ItemsCheck(old(Abs()), creator, items)
      ensures r.Pass? ==>
        Abs() == RegisteredAll(old(Abs()), creator, items).(log := old(log) + RegisteredEvents(creator, items))
    {
      var i := 0;
      ghost var s := Abs();
      assert items[0..] == items && s.(log := s.log) == s;
      while i < |items|
        invariant 0 <= i <= |items|
        invariant RegistersLike(s, creator, items, Abs(), i)
      {
        RegistersNext(s, creator, items, Abs(), i);
        r := RegisterItem(creator, items[i]);
        if r.Fail? { return; }
        i := i + 1;
      }
      assert items[..i] == items;
      return Pass;
    }

    // ----- quest status -----

    method MoveStatus(auth: set<Address>, caller: Address, q: Symbol, status: QuestStatus,
        event: Event) returns (r: Verdict)
      modifies this`quests, this`log
      ensures r == StatusCheck(old(Abs()), auth, caller, q, status)
      ensures Abs() == if r.Pass? then WithStatus(old(Abs()), q, status).(log := old(log) + [event]) else old(Abs())
    {
      if guard.paused { return Fail(ContractPaused); }
      r := RequireAdmin(auth, caller);
      if r.Fail? { return; }
      if q !in quests { return Fail(QuestNotFound); }
      if !QuestTransition(quests[q].status, status) { return Fail(InvalidStatusTransition); }
      quests := quests[q := quests[q].(status := status)];
      log := log + [event];
    }

    method PauseQuest(auth: set<Address>, caller: Address, q: Symbol) returns (r: Verdict)
      modifies this
      ensures Executes(old(Abs()), Abs(), auth, OnQuest(ClaimSpec.PauseQuest(caller, q)), r)
    {
      r := MoveStatus(auth, caller, q, Paused, QuestPaused(q, caller));
    }

    method ResumeQuest(auth: set<Address>, caller: Address, q: Symbol) returns (r: Verdict)
      modifies this
      ensures Executes(old(Abs()), Abs(), auth, OnQuest(ClaimSpec.ResumeQuest(caller, q)), r)
    {
      r := MoveStatus(auth, caller, q, Active, QuestResumed(q, caller));
    }

    // ----- submissions -----

    method SubmitProof(auth: set<Address>, q: Symbol, u: Address, proof: Hash) returns (r: Verdict)
      modifies this
      ensures Executes(old(Abs()), Abs(), auth, OnQuest(Submit(q, u, proof)), r)
    {
      r := EnterFor(auth, u);
      if r.Fail? { return; }
      if q !in quests { return Fail(QuestNotFound); }
      if quests[q].status != Active { return Fail(QuestNotActive); }
      if now >= quests[q].deadline { return Fail(QuestExpired); }
      subs := subs[(q, u) := Submission(q, u, proof, Pending, now)];
      log := log + [ProofSubmitted(q, u, proof)];
    }

    method AddressesDistinct(a: Address, b: Address) returns (r: Verdict)
      ensures r == Need(a != b, InvalidAddress)
    {
      if a == b { return Fail(InvalidAddress); }
      return Pass;
    }

    method ApproveSubmission(auth: set<Address>, q: Symbol, u: Address, v: Address) returns (r: Verdict)
      modifies this
      ensures Executes(old(Abs()), Abs(), auth, OnQuest(Approve(q, u, v)), r)
    {
      r := EnterFor(auth, v);
      if r.Fail? { return; }
      if q !in quests { return Fail(QuestNotFound); }
      if v != quests[q].verifier { return Fail(Unauthorized); }
      if (q, u) !in subs { return Fail(SubmissionNotFound); }
      if !SubmissionTransition(subs[(q, u)].status, Approved) { return Fail(InvalidStatusTransition); }
      r := AddressesDistinct(v, quests[q].verifier);
      // The escrow test, the approval and its event follow here, out of reach.
      if r.Pass? { assert false; }
    }

    /** The verifier is none of the submitters. */
    method ValidateSubmitters(v: Address, items: seq<ApprovalInput>) returns (r: Verdict)
      ensures r == Need(NoSelfApproval(v, items), InvalidAddress)
    {
      for i := 0 to |items|
        invariant forall j :: 0 <= j < i ==> v != items[j].submitter
      {
        r := AddressesDistinct(v, items[i].submitter);
        if r.Fail? { return; }
      }
      return Pass;
    }

    method ApproveSubmissionsBatch(auth: set<Address>, v: Address, items: seq<ApprovalInput>) returns (r: Verdict)
      modifies this
      ensures Executes(old(Abs()), Abs(), auth, OnQuest(ApproveBatch(v, items)), r)
      ensures r.Pass? <==> ClaimBatch.BatchAccepted(old(Abs()), auth, v, items)
      ensures r.Pass? ==> subs == ClaimBatch.Flipped(old(subs), items)
    {
      ClaimBatch.BatchApproval(Abs(), auth, v, items);
      r := EnterFor(auth, v);
      if r.Fail? { return; }
      if |items| == 0 { return Fail(ArrayTooLong); }
      if |items| > MAX_BATCH { return Fail(ArrayTooLong); }
      r := ValidateSubmitters(v, items);
      if r.Fail? { return; }
      var saved := Abs();
      r := ApproveItems(v, items);
      if r.Fail? { Rollback(saved); }
    }

    /**
     The loop keeps the quest of the previous item and reads storage again only when the
     quest changes; it is proved against the item-by-item approval that always reads.
     */
    method ApproveItems(v: Address, items: seq<ApprovalInput>) returns (r: Verdict)
      modifies this`subs, this`log
      ensures r == ApprovalsCheck(old(Abs()), v, items)
      ensures r.Pass? <==> ClaimBatch.AllApprovable(old(Abs()), v, items) && ClaimBatch.NoRepeats(items)
      ensures r.Pass? ==> Abs() == ApprovedAll(old(Abs()), v, items).(log := old(log) + ApprovedEvents(v, items))
    {
      ClaimBatch.ApprovalsPassIff(Abs(), v, items);
      var cachedId: Option<Symbol> := None;
      var cachedQuest: Option<Quest> := None;
      var i := 0;
      ghost var s := Abs();
      assert items[0..] == items && s.(log := s.log) == s;
      while i < |items|
        invariant 0 <= i <= |items|
        invariant cachedId.Some? ==> cachedId.value in quests && cachedQuest == Some(quests[cachedId.value])
        invariant ApprovesLike(s, v, items, Abs(), i)
      {
        ApprovesNext(s, v, items, Abs(), i);
        if cachedId != Some(items[i].quest) {
          if items[i].quest !in quests { return Fail(QuestNotFound); }
          cachedId, cachedQuest := Some(items[i].quest), Some(quests[items[i].quest]);
        }
        r := ApproveItem(v, items[i], cachedQuest.value);
        if r.Fail? { return; }
        i := i + 1;
      }
      assert items[..i] == items;
      return Pass;
    }

    /** One item, given its quest. */
    method ApproveItem(v: Address, item: ApprovalInput, quest: Quest) returns (r: Verdict)
      requires item.quest in quests && quest == quests[item.quest]
      modifies this`subs, this`log
      ensures r == ApprovalCheck(old(Abs()), v, item)
      ensures r.Pass? <==> ClaimBatch.Approvable(old(Abs()), v, item)
      ensures Abs() == if r.Pass? then ApprovedAndLogged(old(Abs()), v, item) else old(Abs())
    {
      if v != quest.verifier { return Fail(Unauthorized); }
      if KeyOf(item) !in subs { return Fail(SubmissionNotFound); }
      if !SubmissionTransition(subs[KeyOf(item)].status, Approved) { return Fail(InvalidStatusTransition); }
      if item.quest in escrows {
        r := ValidateSufficient(item.quest, quest.reward);
        if r.Fail? { return; }
      }
      subs := subs[KeyOf(item) := subs[KeyOf(item)].(status := Approved)];
      log := log + [ApprovedEvent(v, item)];
      return Pass;
    }

    // ----- claims -----

    method ValidateClaim(q: Symbol, u: Address) returns (r: Verdict)
      ensures r == ClaimableCheck(Abs(), q, u)
    {
      if q !in quests { return Fail(QuestNotFound); }
      if (q, u) !in subs { return Fail(SubmissionNotFound); }
      if subs[(q, u)].status == Paid { return Fail(AlreadyClaimed); }
      if !SubmissionTransition(subs[(q, u)].status, Paid) { return Fail(InvalidStatusTransition); }
      if quests[q].totalClaims >= MAX_QUEST_CLAIMS { return Fail(ArrayTooLong); }
      return Pass;
    }

    method TransferReward(asset: Address, to: Address, amount: int) returns (r: Verdict)
      modifies this`tokens
      ensures r == TransferCheck(old(tokens), asset, to, amount)
      ensures tokens == if r.Pass? then Transfer(old(tokens), asset, Contract, to, amount) else old(tokens)
    {
      if amount <= 0 { return Fail(InvalidRewardAmount); }
      if Balance(tokens, asset, Contract) < amount { return Fail(InsufficientBalance); }
      if !CanTransfer(tokens, asset, Contract, to, amount) { return Fail(TransferFailed); }
      tokens := Transfer(tokens, asset, Contract, to, amount);
      return Pass;
    }

    /** Books a payout that has been made. */
    method RecordPayout(q: Symbol, recipient: Address, amount: int) returns (r: Verdict)
      modifies this`escrows, this`log
      ensures r == if q !in old(escrows) then Fail(EscrowNotFound)
        else if CoverCheck(old(Abs()), q, amount).Fail? then CoverCheck(old(Abs()), q, amount)
        else Need(TotalsFit(PaidFromEscrow(old(escrows)[q], amount)), HostTrap)
      ensures r.Fail? ==> escrows == old(escrows) && log == old(log)
      ensures r.Pass? ==>
        && escrows == old(escrows)[q := PaidFromEscrow(old(escrows)[q], amount)]
        && log == old(log) + [EscrowPayout(q, recipient, amount, Available(old(escrows)[q]) - amount)]
    {
      r := ValidateSufficient(q, amount);
      if r.Fail? { return; }
      var e := escrows[q];
      e := e.(paidOut := e.paidOut + amount);
      if !TotalsFit(e) { return Fail(HostTrap); }
      escrows := escrows[q := e];
      log := log + [EscrowPayout(q, recipient, amount, e.deposited - e.paidOut - e.refunded)];
    }

    /** Checks the escrow, transfers, books; a quest without escrow is paid from the pooled balance. */
    method TransferRewardFromEscrow(q: Symbol, asset: Address, to: Address, amount: int) returns (r: Verdict)
      modifies this`tokens, this`escrows, this`log
      ensures r == PayoutCheck(old(Abs()), q, asset, to, amount)
      ensures r.Pass? ==> Abs() == PaidOut(old(Abs()), q, asset, to, amount)
    {
      var hasEscrow := q in escrows;
      if hasEscrow {
        r := ValidateSufficient(q, amount);
        if r.Fail? { return; }
      }
      r := TransferReward(asset, to, amount);
      if r.Fail? { return; }
      if hasEscrow {
        r := RecordPayout(q, to, amount);
      }
    }

    method AwardXp(u: Address, xp: u64) returns (r: Verdict)
      modifies this`stats, this`log
      ensures r == Need(HasRoomFor(StatsOf(old(Abs()), u), xp), HostTrap)
      ensures r.Pass? ==>
        var before := StatsOf(old(Abs()), u);
        var after := AwardedXp(before, xp);
        && stats == old(stats)[u := after]
        && log == old(log) + [XpAwarded(u, xp, after.xp, after.level)]
                  + (if after.level > before.level then [LevelUp(u, after.level)] else [])
    {
      var entry := StatsOf(Abs(), u);
      if entry.xp + xp > U64_MAX { return Fail(HostTrap); }
      if entry.questsCompleted == U32_MAX { return Fail(HostTrap); }
      entry := entry.(xp := entry.xp + xp, questsCompleted := entry.questsCompleted + 1);
      var level := LevelOf(entry.xp);
      var levelUp := level > entry.level;
      entry := entry.(level := level);
      stats := stats[u := entry];
      log := log + [XpAwarded(u, xp, entry.xp, entry.level)];
      if levelUp { log := log + [LevelUp(u, entry.level)]; }
      return Pass;
    }

    method ClaimReward(auth: set<Address>, q: Symbol, u: Address) returns (r: Verdict)
      modifies this
      ensures Executes(old(Abs()), Abs(), auth, OnQuest(Claim(q, u)), r)
    {
      var saved := Abs();
      r := EnterFor(auth, u);
      if r.Fail? { return; }
      r := ClaimSteps(auth, q, u);
      if r.Fail? { Rollback(saved); }
    }

    method ClaimSteps(ghost auth: set<Address>, q: Symbol, u: Address) returns (r: Verdict)
      requires Entry(Abs(), auth, u).Pass?
      modifies this`tokens, this`escrows, this`subs, this`quests, this`stats, this`log
      ensures r == ClaimCheck(old(Abs()), auth, q, u)
      ensures r.Pass? ==>
        Abs() == ClaimEffect(old(Abs()), auth, q, u).(log := old(log) + ClaimEvents(old(Abs()), auth, q, u))
    {
      r := ValidateClaim(q, u);
      if r.Fail? { return; }
      var quest := quests[q];
      r := TransferRewardFromEscrow(q, quest.asset, u, quest.reward);
      if r.Fail? { return; }
      r := SettleClaim(q, u, quest);
      if r.Pass? { ClaimHalves(old(Abs()), auth, q, u); }
    }

    /** After the transfer: submission paid, claim counted and logged, experience awarded. */
    method SettleClaim(q: Symbol, u: Address, quest: Quest) returns (r: Verdict)
      requires ClaimableCheck(Abs(), q, u).Pass? && quest == quests[q]
      modifies this`subs, this`quests, this`stats, this`log
      ensures r == Need(StatsHaveRoom(old(Abs()), u), HostTrap)
      ensures r.Pass? ==> Abs() == Settled(old(Abs()), q, u)
    {
      subs := subs[(q, u) := subs[(q, u)].(status := Paid)];
      quests := quests[q := quests[q].(totalClaims := quests[q].totalClaims + 1)];
      log := log + [RewardClaimed(q, u, quest.asset, quest.reward)];
      assert StatsOf(Abs(), u) == StatsOf(old(Abs()), u);
      r := AwardXp(u, XP_PER_CLAIM);
    }

    method GrantBadge(auth: set<Address>, caller: Address, user: Address, badge: Badge) returns (r: Verdict)
      modifies this
      ensures Executes(old(Abs()), Abs(), auth, OnQuest(ClaimSpec.GrantBadge(caller, user, badge)), r)
    {
      if guard.paused { return Fail(ContractPaused); }
      var entry := StatsOf(Abs(), user);
      if |entry.badges| >= MAX_BADGES_COUNT { return Fail(ArrayTooLong); }
      r := RequireAdmin(auth, caller);
      if r.Fail? { return; }
      if badge !in entry.badges {
        entry := entry.(badges := entry.badges + [badge]);
        stats := stats[user := entry];
        log := log + [BadgeGranted(user, badge)];
      } else {
        assert log == log + [];
      }
    }

    // ----- escrow -----

    method DepositEscrow(auth: set<Address>, q: Symbol, depositor: Address, token: Address,
        amount: i128) returns (r: Verdict)
      modifies this
      ensures Executes(old(Abs()), Abs(), auth, OnEscrow(Deposit(q, depositor, token, amount)), r)
    {
      r := EnterFor(auth, depositor);
      if r.Fail? { return; }
      var saved := Abs();
      r := DepositSteps(auth, q, depositor, token, amount);
      if r.Fail? { Rollback(saved); }
    }

    method DepositSteps(ghost auth: set<Address>, q: Symbol, depositor: Address, token: Address, amount: i128)
      returns (r: Verdict)
      requires Entry(Abs(), auth, depositor).Pass?
      modifies this`tokens, this`escrows, this`log
      ensures r == DepositCheck(old(Abs()), auth, Deposit(q, depositor, token, amount))
      ensures r.Pass? ==>
        var op := Deposit(q, depositor, token, amount);
        Abs() == EscrowEffect(old(Abs()), auth, op).(log := old(log) + EscrowEvents(old(Abs()), auth, op))
    {
      r := ValidateAmount(amount);
      if r.Fail? { return; }
      if q !in quests { return Fail(QuestNotFound); }
      if depositor != quests[q].creator { return Fail(Unauthorized); }
      if Terminal(quests[q].status) { return Fail(QuestNotActive); }
      if token != quests[q].asset { return Fail(TokenMismatch); }
      if !CanTransfer(tokens, token, depositor, Contract, amount) { return Fail(TransferFailed); }
      tokens := Transfer(tokens, token, depositor, Contract, amount);
      r := BookDeposit(q, depositor, token, amount);
    }

    /** Loads or opens the escrow, adds the deposit and logs it with the balance it leaves. */
    method BookDeposit(q: Symbol, depositor: Address, token: Address, amount: i128) returns (r: Verdict)
      modifies this`escrows, this`log
      ensures var e := EscrowFor(old(Abs()), Deposit(q, depositor, token, amount));
        && r == (if !e.active then Fail(EscrowInactive)
                 else Need(e.depositCount < U32_MAX && TotalsFit(ToppedUp(e, amount)), HostTrap))
        && (r.Pass? ==>
              && escrows == old(escrows)[q := ToppedUp(e, amount)]
              && log == old(log) + [EscrowDeposited(q, depositor, amount, Available(e) + amount)])
    {
      var e: EscrowInfo;
      if q in escrows {
        if !escrows[q].active { return Fail(EscrowInactive); }
        e := escrows[q];
      } else {
        e := EscrowInfo(q, depositor, token, 0, 0, 0, true, now, 0);
      }
      if e.depositCount == U32_MAX { return Fail(HostTrap); }
      e := e.(deposited := e.deposited + amount, depositCount := e.depositCount + 1);
      if !TotalsFit(e) { return Fail(HostTrap); }
      escrows := escrows[q := e];
      log := log + [EscrowDeposited(q, depositor, amount, e.deposited - e.paidOut - e.refunded)];
      return Pass;
    }

    /** Sends back what is left and closes the escrow. */
    method RefundRemaining(q: Symbol) returns (r: Result<int, Error>)
      modifies this`tokens, this`escrows, this`log
      ensures r == if q !in old(escrows) then Err(EscrowNotFound)
        else Answer(RefundCheck(old(Abs()), q), RefundAmount(old(Abs()), q))
      ensures r.Ok? ==> Abs() == Refunded(old(Abs()), q)
    {
      if q !in escrows { return Err(EscrowNotFound); }
      var e := escrows[q];
      if !TotalsFit(e) { return Err(HostTrap); }
      var available := e.deposited - e.paidOut - e.refunded;
      if available > 0 {
        if !CanTransfer(tokens, e.token, Contract, e.depositor, available) { return Err(TransferFailed); }
        tokens := Transfer(tokens, e.token, Contract, e.depositor, available);
      }
      e := e.(refunded := e.refunded + available, active := false);
      if !TotalsFit(e) { return Err(HostTrap); }
      escrows := escrows[q := e];
      if available > 0 {
        log := log + [EscrowRefunded(q, e.depositor, available)];
      } else {
        assert log == log + [];
      }
      return Ok(available);
    }

    /** Cancelling and expiring share their end: status first, then the refund. */
    method EndAndRefund(q: Symbol, status: QuestStatus) returns (r: Result<int, Error>)
      requires q in quests
      modifies this`quests, this`tokens, this`escrows, this`log
      ensures r == Answer(RefundCheck(old(Abs()), q), RefundAmount(old(Abs()), q))
      ensures r.Ok? ==> Abs() == WithStatus(Refunded(old(Abs()), q), q, status)
    {
      quests := quests[q := quests[q].(status := status)];
      if q in escrows {
        r := RefundRemaining(q);
      } else {
        assert log == log + [];
        r := Ok(0);
      }
    }

    method CancelQuest(auth: set<Address>, q: Symbol, caller: Address) returns (r: Result<int, Error>)
      modifies this
      ensures Refunds(old(Abs()), Abs(), auth, Cancel(q, caller), r)
    {
      var entry := EnterFor(auth, caller);
      if entry.Fail? { return Err(entry.error); }
      if q !in quests { return Err(QuestNotFound); }
      if caller != quests[q].creator { return Err(Unauthorized); }
      if Terminal(quests[q].status) { return Err(QuestNotActive); }
      if !QuestTransition(quests[q].status, Cancelled) { return Err(InvalidStatusTransition); }
      var saved := Abs();
      r := EndAndRefund(q, Cancelled);
      if r.Err? {
        Rollback(saved);
      } else {
        log := log + [QuestCancelled(q, caller, r.value)];
        assert log == old(log) + EscrowEvents(old(Abs()), auth, Cancel(q, caller));
      }
    }

    method ExpireQuest(auth: set<Address>, q: Symbol, caller: Address) returns (r: Result<int, Error>)
      modifies this
      ensures Refunds(old(Abs()), Abs(), auth, Expire(q, caller), r)
    {
      var entry := EnterFor(auth, caller);
      if entry.Fail? { return Err(entry.error); }
      if q !in quests { return Err(QuestNotFound); }
      if caller != quests[q].creator { return Err(Unauthorized); }
      if Terminal(quests[q].status) { return Err(QuestNotActive); }
      if now < quests[q].deadline { return Err(QuestNotActive); }
      if !QuestTransition(quests[q].status, Expired) { return Err(InvalidStatusTransition); }
      var saved := Abs();
      r := EndAndRefund(q, Expired);
      if r.Err? { Rollback(saved); }
    }

    method WithdrawUnclaimed(auth: set<Address>, q: Symbol, caller: Address) returns (r: Result<int, Error>)
      modifies this
      ensures Refunds(old(Abs()), Abs(), auth, Withdraw(q, caller), r)
    {
      var entry := EnterFor(auth, caller);
      if entry.Fail? { return Err(entry.error); }
      if q !in quests { return Err(QuestNotFound); }
      if caller != quests[q].creator { return Err(Unauthorized); }
      if !Terminal(quests[q].status) { return Err(QuestNotTerminal); }
      if q !in escrows { return Err(EscrowNotFound); }
      var e := escrows[q];
      if !TotalsFit(e) { return Err(HostTrap); }
      if e.deposited - e.paidOut - e.refunded <= 0 { return Err(NoFundsToWithdraw); }
      var saved := Abs();
      r := RefundRemaining(q);
      if r.Err? {
        Rollback(saved);
      } else {
        assert quests == quests[q := quests[q].(status := quests[q].status)];
      }
    }

    // ----- admins and the emergency pause -----

    method Initialize(auth: set<Address>, admin: Address) returns (r: Verdict)
      modifies this
      ensures Executes(old(Abs()), Abs(), auth, OnGuard(ClaimSpec.Initialize(admin)), r)
    {
      if !Signed(auth, admin) { return Fail(HostTrap); }
      if initialized { return Fail(HostTrap); }
      admins := admins + {admin};
      initialized := true;
      assert log == log + [];
      return Pass;
    }

    method AddAdmin(auth: set<Address>, caller: Address, newAdmin: Address) returns (r: Verdict)
      modifies this
      ensures Executes(old(Abs()), Abs(), auth, OnGuard(ClaimSpec.AddAdmin(caller, newAdmin)), r)
    {
      if guard.paused { return Fail(ContractPaused); }
      r := RequireAdmin(auth, caller);
      if r.Fail? { return; }
      admins := admins + {newAdmin};
      assert log == log + [];
    }

    method RemoveAdmin(auth: set<Address>, caller: Address, admin: Address) returns (r: Verdict)
      modifies this
      ensures Executes(old(Abs()), Abs(), auth, OnGuard(ClaimSpec.RemoveAdmin(caller, admin)), r)
    {
      if guard.paused { return Fail(ContractPaused); }
      r := RequireAdmin(auth, caller);
      if r.Fail? { return; }
      admins := admins - {admin};
      assert log == log + [];
    }

    method EmergencyPause(auth: set<Address>, caller: Address) returns (r: Verdict)
      modifies this
      ensures Executes(old(Abs()), Abs(), auth, OnGuard(ClaimSpec.EmergencyPause(caller)), r)
    {
      r := RequireAdmin(auth, caller);
      if r.Fail? { return; }
      guard := guard.(paused := true);
      log := log + [EmergencyPaused(caller)];
    }

    /** An approval of the round is stored or removed together with the counter's change. */
    method SetUnpauseApproval(admin: Address, approved: bool)
      modifies this`guard
      ensures guard == ApprovalSet(old(guard), admin, approved)
    {
      if approved {
        if (guard.round, admin) !in guard.approvals {
          guard := guard.(approvals := guard.approvals + {(guard.round, admin)});
          guard := guard.(approvalCount := Saturated(guard.approvalCount + 1));
        }
      } else {
        if (guard.round, admin) in guard.approvals {
          guard := guard.(approvals := guard.approvals - {(guard.round, admin)});
          guard := guard.(approvalCount := if guard.approvalCount > 0 then guard.approvalCount - 1 else 0);
        }
      }
    }

    method EmergencyApproveUnpause(auth: set<Address>, caller: Address) returns (r: Verdict)
      modifies this
      ensures Executes(old(Abs()), Abs(), auth, OnGuard(ApproveUnpause(caller)), r)
    {
      var saved := Abs();
      r := ApproveUnpauseSteps(auth, caller);
      if r.Fail? { Rollback(saved); }
    }

    method ApproveUnpauseSteps(auth: set<Address>, caller: Address) returns (r: Verdict)
      modifies this`guard, this`log
      ensures r == ApproveUnpauseCheck(old(Abs()), auth, caller)
      ensures r.Pass? ==> guard == WithApproval(old(guard), now, caller)
      ensures r.Pass? ==> log == old(log) + GuardEvents(old(Abs()), auth, ApproveUnpause(caller))
    {
      r := RequireAdmin(auth, caller);
      if r.Fail? { return; }
      if (guard.round, caller) in guard.approvals { return Fail(AlreadyApproved); }
      r := CountApproval(caller);
    }

    /** Stores and logs an approval; the one that reaches the threshold schedules the unpause. */
    method CountApproval(caller: Address) returns (r: Verdict)
      requires (guard.round, caller) !in guard.approvals
      modifies this`guard, this`log
      ensures r == Need(Schedules(old(guard)) ==> now + old(guard).timelock <= U64_MAX, HostTrap)
      ensures r.Pass? ==> guard == WithApproval(old(guard), now, caller)
      ensures r.Pass? ==>
        log == old(log) + ([UnpauseApproved(caller)] +
                           (if Schedules(old(guard)) then [TimelockScheduled(now + old(guard).timelock)] else []))
    {
      SetUnpauseApproval(caller, true);
      log := log + [UnpauseApproved(caller)];
      if guard.approvalCount >= guard.threshold {
        if now + guard.timelock > U64_MAX { return Fail(HostTrap); }
        guard := guard.(scheduled := Some(now + guard.timelock));
        log := log + [TimelockScheduled(now + guard.timelock)];
      }
      return Pass;
    }

    /** A new round, so that the approvals of the old one no longer count. */
    method ClearUnpauseApprovals()
      modifies this`guard
      ensures guard == old(guard).(round := Saturated(old(guard).round + 1), approvalCount := 0, scheduled := None)
    {
      guard := guard.(round := Saturated(guard.round + 1));
      guard := guard.(approvalCount := 0);
      guard := guard.(scheduled := None);
    }

    method EmergencyUnpause(auth: set<Address>, caller: Address) returns (r: Verdict)
      modifies this
      ensures Executes(old(Abs()), Abs(), auth, OnGuard(Unpause(caller)), r)
      ensures r.Pass? <==>
        && Signed(auth, caller) && caller in admins
        && old(guard).scheduled.Some? && old(guard).scheduled.value <= now
      ensures r.Pass? ==> !guard.paused && guard.scheduled == None && guard.approvalCount == 0
    {
      r := RequireAdmin(auth, caller);
      if r.Fail? { return; }
      if guard.scheduled.None? { return Fail(InsufficientApprovals); }
      if now < guard.scheduled.value { return Fail(TimelockNotExpired); }
      guard := guard.(paused := false);
      ClearUnpauseApprovals();
      log := log + [EmergencyUnpaused(caller)];
    }

    method EmergencyWithdraw(auth: set<Address>, caller: Address, asset: Address, to: Address,
        amount: i128) returns (r: Verdict)
      modifies this
      ensures Executes(old(Abs()), Abs(), auth, OnGuard(ClaimSpec.EmergencyWithdraw(caller, asset, to, amount)), r)
    {
      r := ValidateAmount(amount);
      if r.Fail? { return; }
      r := RequireAdmin(auth, caller);
      if r.Fail? { return; }
      if !guard.paused { return Fail(ContractPaused); }
      if Balance(tokens, asset, Contract) < amount { return Fail(InsufficientBalance); }
      if !CanTransfer(tokens, asset, Contract, to, amount) { return Fail(TransferFailed); }
      tokens := Transfer(tokens, asset, Contract, to, amount);
      log := log + [EmergencyWithdrawn(caller, asset, to, amount)];
    }

    method SetUnpauseThreshold(auth: set<Address>, caller: Address, threshold: u32) returns (r: Verdict)
      modifies this
      ensures Executes(old(Abs()), Abs(), auth, OnGuard(SetThreshold(caller, threshold)), r)
    {
      r := RequireAdmin(auth, caller);
      if r.Fail? { return; }
      guard := guard.(threshold := threshold);
      assert log == log + [];
    }

    method SetUnpauseTimelock(auth: set<Address>, caller: Address, seconds: u64) returns (r: Verdict)
      modifies this
      ensures Executes(old(Abs()), Abs(), auth, OnGuard(SetTimelock(caller, seconds)), r)
    {
      r := RequireAdmin(auth, caller);
      if r.Fail? { return; }
      guard := guard.(timelock := seconds);
      assert log == log + [];
    }

    // ----- queries -----

    method GetQuestsByStatus(status: QuestStatus, offset: u32, limit: u32) returns (results: seq<Quest>)
      ensures results == Page(Filtered(quests, questIds, ByStatus(status)), offset, limit)
      ensures forall quest :: quest in results ==> quest in quests.Values && quest.status == status
    {
      results := [];
      assert questIds[..|questIds|] == questIds;
      var matched, count := 0, 0;
      ghost var query := ByStatus(status);
      for i := 0 to |questIds|
        invariant ReadSoFar(quests, questIds[..i], query, offset, limit, results, matched, count)
      {
        ListingStep(quests, questIds, query, offset, limit, i);
        if count >= limit { break; }
        var id := questIds[i];
        if id in quests {
          var quest := quests[id];
          if quest.status == status {
            if matched >= offset {
              results := results + [quest];
              count := count + 1;
            }
            matched := matched + 1;
          }
        }
      }
      PageOfMatches(quests, questIds, ByStatus(status), offset, limit);
    }

    method GetQuestsByCreator(creator: Address, offset: u32, limit: u32) returns (results: seq<Quest>)
      ensures results == Page(Filtered(quests, questIds, ByCreator(creator)), offset, limit)
      ensures forall quest :: quest in results ==> quest in quests.Values && quest.creator == creator
    {
      results := [];
      assert questIds[..|questIds|] == questIds;
      var matched, count := 0, 0;
      ghost var query := ByCreator(creator);
      for i := 0 to |questIds|
        invariant ReadSoFar(quests, questIds[..i], query, offset, limit, results, matched, count)
      {
        ListingStep(quests, questIds, query, offset, limit, i);
        if count >= limit { break; }
        var id := questIds[i];
        if id in quests {
          var quest := quests[id];
          if quest.creator == creator {
            if matched >= offset {
              results := results + [quest];
              count := count + 1;
            }
            matched := matched + 1;
          }
        }
      }
      PageOfMatches(quests, questIds, ByCreator(creator), offset, limit);
    }

    method GetActiveQuests(offset: u32, limit: u32) returns (results: seq<Quest>)
      ensures results == Page(Filtered(quests, questIds, ByStatus(Active)), offset, limit)
      ensures forall quest :: quest in results ==> quest in quests.Values && quest.status == Active
    {
      PageOfMatches(quests, questIds, ByStatus(Active), offset, limit);
      results := GetQuestsByStatus(Active, offset, limit);
    }

    method GetQuestsByRewardRange(min: i128, max: i128, offset: u32, limit: u32) returns (results: seq<Quest>)
      ensures results == Page(Filtered(quests, questIds, ByReward(min, max)), offset, limit)
      ensures forall quest :: quest in results ==> quest in quests.Values && min <= quest.reward && quest.reward <= max
    {
      results := [];
      assert questIds[..|questIds|] == questIds;
      var matched, count := 0, 0;
      ghost var query := ByReward(min, max);
      for i := 0 to |questIds|
        invariant ReadSoFar(quests, questIds[..i], query, offset, limit, results, matched, count)
      {
        ListingStep(quests, questIds, query, offset, limit, i);
        if count >= limit { break; }
        var id := questIds[i];
        if id in quests {
          var quest := quests[id];
          if quest.reward >= min && quest.reward <= max {
            if matched >= offset {
              results := results + [quest];
              count := count + 1;
            }
            matched := matched + 1;
          }
        }
      }
      PageOfMatches(quests, questIds, ByReward(min, max), offset, limit);
    }
  }
}
