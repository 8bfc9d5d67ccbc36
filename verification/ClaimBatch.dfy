/** Batches: item-by-item processing has a closed form that does not depend on the order. */
module ClaimBatch {
  import opened Prelude
  import opened ClaimTypes
  import opened ClaimSpec

  // ----- approvals -----

  /**
   What one item must satisfy: the quest is stored and names this verifier, the submission is
   stored and pending, and an escrow, where there is one, is open and holds the reward.
   */
  predicate Approvable(s: State, v: Address, item: ApprovalInput) {
    && item.quest in s.quests && s.quests[item.quest].verifier == v
    && KeyOf(item) in s.subs && s.subs[KeyOf(item)].status == Pending
    && (item.quest in s.escrows ==>
          var e := s.escrows[item.quest];
          e.active && TotalsFit(e) && s.quests[item.quest].reward <= e.deposited - e.paidOut - e.refunded)
  }

  lemma ApprovalPassesIff(s: State, v: Address, item: ApprovalInput)
    ensures ApprovalCheck(s, v, item).Pass? <==> Approvable(s, v, item)
  {
  }

  predicate AllApprovable(s: State, v: Address, items: seq<ApprovalInput>) {
    forall item :: item in items ==> Approvable(s, v, item)
  }

  /** No two items are for the same user and quest. */
  predicate NoRepeats(items: seq<ApprovalInput>) {
    forall i, j :: 0 <= i < j < |items| ==> items[i] != items[j]
  }

  lemma {:induction false} NoRepeatsSplit(items: seq<ApprovalInput>)
    requires items != []
    ensures NoRepeats(items) <==> items[0] !in items[1..] && NoRepeats(items[1..])
  {
    var rest := items[1..];
    if items[0] !in rest && NoRepeats(rest) {
      forall i, j | 0 <= i < j < |items| ensures items[i] != items[j] {
        assert items[j] == rest[j - 1];
        if i > 0 { assert items[i] == rest[i - 1]; }
      }
    }
  }

  /** Approving one item fails it from then on, and no other. */
  lemma ApprovableAfterOne(s: State, v: Address, first: ApprovalInput, item: ApprovalInput)
    requires Approvable(s, v, first)
    ensures Approvable(ApprovedOne(s, first), v, item) <==> Approvable(s, v, item) && item != first
  {
  }

  lemma {:induction false} AllApprovableAfterOne(s: State, v: Address, items: seq<ApprovalInput>)
    requires items != [] && Approvable(s, v, items[0])
    ensures AllApprovable(ApprovedOne(s, items[0]), v, items[1..])
      <==> AllApprovable(s, v, items) && items[0] !in items[1..]
  {
    var first, rest := items[0], items[1..];
    assert items == [first] + rest;
    forall item | item in rest
      ensures Approvable(ApprovedOne(s, first), v, item) <==> Approvable(s, v, item) && item != first
    {
      ApprovableAfterOne(s, v, first, item);
    }
  }

  /** Item-by-item approval passes exactly when every item is approvable at the start and none repeats. */
  lemma {:induction false} ApprovalsPassIff(s: State, v: Address, items: seq<ApprovalInput>)
    ensures ApprovalsCheck(s, v, items).Pass? <==> AllApprovable(s, v, items) && NoRepeats(items)
    decreases |items|
  {
    if items == [] {
    } else {
      NoRepeatsSplit(items);
      ApprovalPassesIff(s, v, items[0]);
      assert items[0] in items;
      if Approvable(s, v, items[0]) {
        AllApprovableAfterOne(s, v, items);
        ApprovalsPassIff(ApprovedOne(s, items[0]), v, items[1..]);
      }
    }
  }

  /** The submissions of the items turned to approved. */
  function Flipped(subs: map<SubmissionKey, Submission>, items: seq<ApprovalInput>): map<SubmissionKey, Submission> {
    map k | k in subs :: if ApprovalInput(k.0, k.1) in items then subs[k].(status := Approved) else subs[k]
  }

  lemma {:induction false} FlipFirst(subs: map<SubmissionKey, Submission>, items: seq<ApprovalInput>)
    requires items != [] && KeyOf(items[0]) in subs
    ensures Flipped(subs[KeyOf(items[0]) := subs[KeyOf(items[0])].(status := Approved)], items[1..]) ==
      Flipped(subs, items)
  {
    assert items == [items[0]] + items[1..];
  }

  /** What passes turns exactly the named submissions to approved and touches nothing else. */
  lemma {:induction false} ApprovedAllFlips(s: State, v: Address, items: seq<ApprovalInput>)
    requires ApprovalsCheck(s, v, items).Pass?
    ensures ApprovedAll(s, v, items) == s.(subs := Flipped(s.subs, items))
    decreases |items|
  {
    if items == [] {
      assert Flipped(s.subs, []) == s.subs;
    } else {
      var s', rest := ApprovedOne(s, items[0]), items[1..];
      ApprovedAllFlips(s', v, rest);
      FlipFirst(s.subs, items);
    }
  }

  predicate BatchAccepted(s: State, auth: set<Address>, v: Address, items: seq<ApprovalInput>) {
    && !s.guard.paused && Signed(auth, v)
    && 1 <= |items| <= 50
    && (forall i :: 0 <= i < |items| ==> items[i].submitter != v)
    && NoRepeats(items)
    && AllApprovable(s, v, items)
  }

  /**
   The batch entry point succeeds exactly when its size is in bounds, no item repeats or is
   the verifier's own, and every item is approvable in the state before the batch; it then
   flips exactly those submissions.
   */
  lemma {:induction false} BatchApproval(s: State, auth: set<Address>, v: Address, items: seq<ApprovalInput>)
    ensures QuestCheck(s, auth, ApproveBatch(v, items)).Pass? <==> BatchAccepted(s, auth, v, items)
    ensures BatchAccepted(s, auth, v, items) ==>
      QuestEffect(s, auth, ApproveBatch(v, items)) == s.(subs := Flipped(s.subs, items))
  {
    ApprovalsPassIff(s, v, items);
    if ApprovalsCheck(s, v, items).Pass? {
      ApprovedAllFlips(s, v, items);
    }
  }

  lemma {:induction false} NoRepeatsCounts(items: seq<ApprovalInput>)
    ensures NoRepeats(items) <==> forall item :: multiset(items)[item] <= 1
  {
    if items == [] {
    } else {
      NoRepeatsSplit(items);
      NoRepeatsCounts(items[1..]);
      var first, rest := items[0], items[1..];
      assert items == [first] + rest;
      assert forall item :: multiset(items)[item] == multiset(rest)[item] + if item == first then 1 else 0;
      assert first in rest <==> multiset(rest)[first] > 0;
      if NoRepeats(rest) && first !in rest {
        forall item ensures multiset(items)[item] <= 1 { assert multiset(rest)[item] <= 1; }
      } else if NoRepeats(rest) {
        assert multiset(items)[first] > 1;
      } else {
        var item :| multiset(rest)[item] > 1;
        assert multiset(items)[item] > 1;
      }
    }
  }

  lemma {:induction false} SameElements(items: seq<ApprovalInput>, other: seq<ApprovalInput>)
    requires multiset(items) == multiset(other)
    ensures |items| == |other| && (NoRepeats(items) <==> NoRepeats(other))
    ensures forall item :: item in items <==> item in other
  {
    assert |items| == |multiset(items)| == |multiset(other)| == |other|;
    NoRepeatsCounts(items);
    NoRepeatsCounts(other);
    forall item ensures item in items <==> item in other {
      assert item in items <==> item in multiset(items);
      assert item in other <==> item in multiset(other);
    }
  }

  /** Reordering a batch changes neither its success nor the state it leads to. */
  lemma {:induction false} BatchOrderIrrelevant(s: State, auth: set<Address>, v: Address,
      items: seq<ApprovalInput>, other: seq<ApprovalInput>)
    requires multiset(items) == multiset(other)
    ensures QuestCheck(s, auth, ApproveBatch(v, items)).Pass? <==> QuestCheck(s, auth, ApproveBatch(v, other)).Pass?
    ensures QuestCheck(s, auth, ApproveBatch(v, items)).Pass? ==>
      QuestEffect(s, auth, ApproveBatch(v, items)) == QuestEffect(s, auth, ApproveBatch(v, other))
  {
    SameElements(items, other);
    BatchApproval(s, auth, v, items);
    BatchApproval(s, auth, v, other);
    assert BatchAccepted(s, auth, v, items) <==> BatchAccepted(s, auth, v, other) by {
      assert forall i :: 0 <= i < |items| ==> items[i] in other;
      assert forall i :: 0 <= i < |other| ==> other[i] in items;
    }
    assert Flipped(s.subs, items) == Flipped(s.subs, other);
  }

  /**
   The single approval demands a verifier equal to the quest's own and, later, distinct from
   it: it never succeeds, and what the batch would accept it refuses as an invalid address.
   */
  lemma SingleApprovalNeverSucceeds(s: State, auth: set<Address>, q: Symbol, u: Address, v: Address)
    ensures Next(s, Tx(auth, OnQuest(Approve(q, u, v)))) == s
    ensures !s.guard.paused && Signed(auth, v) && Approvable(s, v, ApprovalInput(q, u)) ==>
      QuestCheck(s, auth, Approve(q, u, v)) == Fail(InvalidAddress)
  {
  }

  // ----- registrations -----

  predicate DistinctIds(items: seq<QuestInput>) {
    forall i, j :: 0 <= i < j < |items| ==> items[i].id != items[j].id
  }

  /** What one registration must satisfy: a new id, a reward within bounds, a future deadline, another's verifier. */
  predicate Registrable(s: State, creator: Address, item: QuestInput) {
    && item.id !in s.quests && 0 < item.reward <= 1_000_000_000_000_000
    && s.now < item.deadline && item.verifier != creator
  }

  lemma RegistrationPassesIff(s: State, creator: Address, item: QuestInput)
    ensures ItemCheck(s, creator, item).Pass? <==> Registrable(s, creator, item)
  {
  }

  predicate AllRegistrable(s: State, creator: Address, items: seq<QuestInput>) {
    forall i :: 0 <= i < |items| ==> Registrable(s, creator, items[i])
  }

  lemma {:induction false} AllRegistrableAfterOne(s: State, creator: Address, items: seq<QuestInput>)
    requires items != [] && Registrable(s, creator, items[0])
    ensures AllRegistrable(Registered(s, creator, items[0]), creator, items[1..]) && DistinctIds(items[1..])
      <==> AllRegistrable(s, creator, items) && DistinctIds(items)
  {
    var s' := Registered(s, creator, items[0]);
    var rest := items[1..];
    forall i | 0 <= i < |rest|
      ensures Registrable(s', creator, rest[i]) <==>
        Registrable(s, creator, items[i + 1]) && items[0].id != items[i + 1].id
    {
      assert rest[i] == items[i + 1];
    }
    if AllRegistrable(s', creator, rest) && DistinctIds(rest) {
      forall i, j | 0 <= i < j < |items| ensures items[i].id != items[j].id {
        assert items[j] == rest[j - 1];
        if i > 0 { assert items[i] == rest[i - 1]; }
      }
      forall i | 0 <= i < |items| ensures Registrable(s, creator, items[i]) {
        if i > 0 { assert items[i] == rest[i - 1]; }
      }
    }
  }

  /** A batch registers exactly when each item could be registered alone and no id repeats. */
  lemma {:induction false} RegistrationsPassIff(s: State, creator: Address, items: seq<QuestInput>)
    ensures ItemsCheck(s, creator, items).Pass? <==> AllRegistrable(s, creator, items) && DistinctIds(items)
    decreases |items|
  {
    if items == [] {
    } else {
      RegistrationPassesIff(s, creator, items[0]);
      if Registrable(s, creator, items[0]) {
        AllRegistrableAfterOne(s, creator, items);
        RegistrationsPassIff(Registered(s, creator, items[0]), creator, items[1..]);
      }
    }
  }

  /** The same registrations as single calls. */
  function Singles(auth: set<Address>, creator: Address, items: seq<QuestInput>): (txs: seq<Tx>)
    ensures |txs| == |items|
  {
    seq(|items|, i requires 0 <= i < |items| => Tx(auth, OnQuest(Register(creator, items[i]))))
  }

  lemma {:induction false} RegistrationsSnoc(s: State, creator: Address, items: seq<QuestInput>, last: QuestInput)
    requires ItemsCheck(s, creator, items + [last]).Pass?
    ensures ItemsCheck(s, creator, items).Pass?
    ensures ItemCheck(RegisteredAll(s, creator, items), creator, last).Pass?
    ensures RegisteredAll(s, creator, items + [last]) == Registered(RegisteredAll(s, creator, items), creator, last)
    decreases |items|
  {
    if items == [] {
      assert items + [last] == [last];
    } else {
      assert (items + [last])[0] == items[0] && (items + [last])[1..] == items[1..] + [last];
      RegistrationsSnoc(Registered(s, creator, items[0]), creator, items[1..], last);
    }
  }

  lemma {:induction false} RegisteredAllKeepsRest(s: State, creator: Address, items: seq<QuestInput>)
    ensures RegisteredAll(s, creator, items) ==
      s.(quests := RegisteredAll(s, creator, items).quests, questIds := RegisteredAll(s, creator, items).questIds)
    decreases |items|
  {
    if items == [] {
    } else {
      RegisteredAllKeepsRest(Registered(s, creator, items[0]), creator, items[1..]);
    }
  }

  /** One single registration on a state that differs from `s` only in its log. */
  lemma {:induction false} RegisterOne(s: State, log: seq<Event>, auth: set<Address>, creator: Address,
      item: QuestInput)
    requires Entry(s, auth, creator).Pass? && ItemCheck(s, creator, item).Pass?
    ensures Next(s.(log := log), Tx(auth, OnQuest(Register(creator, item)))) ==
      Registered(s, creator, item).(log := log + [RegisteredEvent(creator, item)])
  {
  }

  lemma {:induction false} EntryAfterRegistrations(s: State, auth: set<Address>, creator: Address,
      items: seq<QuestInput>)
    requires Entry(s, auth, creator).Pass?
    ensures Entry(RegisteredAll(s, creator, items), auth, creator).Pass?
  {
    RegisteredAllKeepsRest(s, creator, items);
  }

  lemma {:induction false} EventsSnoc(log: seq<Event>, creator: Address, init: seq<QuestInput>, last: QuestInput)
    ensures log + RegisteredEvents(creator, init) + [RegisteredEvent(creator, last)] ==
      log + RegisteredEvents(creator, init + [last])
  {
  }

  lemma {:induction false} SinglesSnoc(s: State, auth: set<Address>, creator: Address, init: seq<QuestInput>,
      last: QuestInput)
    ensures Run(s, Singles(auth, creator, init + [last])) ==
      Next(Run(s, Singles(auth, creator, init)), Tx(auth, OnQuest(Register(creator, last))))
  {
    var txs := Singles(auth, creator, init + [last]);
    assert txs[..|txs| - 1] == Singles(auth, creator, init);
  }

  /** A batch that passes does what the single registrations do one after the other, log included. */
  lemma {:induction false} BatchEqualsSingles(s: State, auth: set<Address>, creator: Address, items: seq<QuestInput>)
    requires Entry(s, auth, creator).Pass? && ItemsCheck(s, creator, items).Pass?
    ensures Run(s, Singles(auth, creator, items)) ==
      RegisteredAll(s, creator, items).(log := s.log + RegisteredEvents(creator, items))
    decreases |items|
  {
    if items == [] {
      assert s.log + RegisteredEvents(creator, items) == s.log;
    } else {
      var init, last := items[..|items| - 1], items[|items| - 1];
      assert items == init + [last];
      RegistrationsSnoc(s, creator, init, last);
      BatchEqualsSingles(s, auth, creator, init);
      SinglesSnoc(s, auth, creator, init, last);
      EntryAfterRegistrations(s, auth, creator, init);
      RegisterOne(RegisteredAll(s, creator, init), s.log + RegisteredEvents(creator, init), auth, creator, last);
      EventsSnoc(s.log, creator, init, last);
    }
  }
}
