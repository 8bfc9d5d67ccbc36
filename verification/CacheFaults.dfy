/** Runs in which writes go wrong: what stays right, what becomes stale, and that it can. */
module CacheFaults {
  import opened Prelude
  import opened QueryKey
  import opened CacheSpec
  import opened CacheCoherence

  // ----- a fault harms only the keys it names -----

  /** Coherence of one key: stored means registered, and equal to the table's answer. */
  ghost predicate KeyCoherentIn(e: Engine, db: Table, c: Cache, key: string) {
    && (key in c.primary ==> key in c.registry && Agrees(e, db, key, c.primary[key]))
    && (key in c.fallback ==> key in c.registry && Agrees(e, db, key, c.fallback[key].value))
  }

  ghost predicate KeyCoherent(e: Engine, s: State, key: string) {
    KeyCoherentIn(e, s.db, s.cache, key)
  }

  /** What a write has to invalidate. */
  predicate Touches(op: Op, key: string)
    requires op.Create? || op.Update? || op.Remove?
  {
    LISTS <= key || (!op.Create? && key == DetailKey(op.id))
  }

  /**
   An operation goes wrong for the key: a write that has to invalidate it throws before it does
   or cannot delete it, or a clearing forgets it and leaves it in the primary store.
   */
  predicate FailsFor(op: Op, key: string) {
    match op
    case Create(_, _, fault) => Touches(op, key) && (fault.throws || key in fault.broken)
    case Update(_, _, _, _, _, fault) => Touches(op, key) && (fault.throws || key in fault.broken)
    case Remove(_, _, fault) => Touches(op, key) && (fault.throws || key in fault.broken)
    case Clear(Reset(works)) => !works
    case Clear(KeyByKey(broken)) => key in broken
    case Restart => true
    case _ => false
  }

  function KeyOf(read: Op): string
    requires read.FindAll? || read.FindOne?
  {
    if read.FindAll? then ListKey(read.query) else DetailKey(read.id)
  }

  lemma {:induction false} KeyLookup(e: Engine, s: State, looked: string, fails: bool, key: string)
    requires KeyCoherent(e, s, key)
    ensures KeyCoherentIn(e, s.db, AfterLookup(s.cache, looked, s.now, fails), key)
  {
  }

  lemma {:induction false} KeySet(e: Engine, db: Table, c: Cache, stored: string, value: Cached, ttl: nat, now: nat,
      outcome: SetOutcome, key: string)
    requires KeyCoherentIn(e, db, c, key) && Agrees(e, db, stored, value)
    ensures KeyCoherentIn(e, db, AfterSet(c, stored, value, ttl, now, outcome), key)
  {
  }

  lemma {:induction false} KeyRead(e: Engine, s: State, op: Op, key: string)
    requires (op.FindAll? || op.FindOne?) && KeyCoherent(e, s, key)
    ensures KeyCoherent(e, Next(e, s, op), key)
  {
    KeyLookup(e, s, KeyOf(op), op.fails, key);
    var c := AfterLookup(s.cache, KeyOf(op), s.now, op.fails);
    if op.FindAll? {
      ListAnswerAgrees(e, s.db, op.query);
      KeySet(e, s.db, c, KeyOf(op), PageOf(e.answer(s.db, op.query)), LIST_TTL, s.now, op.outcome, key);
    } else if op.id in s.db {
      DetailAnswerAgrees(e, s.db, op.id);
      KeySet(e, s.db, c, KeyOf(op), DetailOf(View(s.db[op.id])), DETAIL_TTL, s.now, op.outcome, key);
    }
  }

  /** A value of a key the write does not touch agrees with the changed table. */
  lemma {:induction false} UntouchedAgrees(e: Engine, db: Table, op: Op, key: string, value: Cached)
    requires (op.Create? || op.Update? || op.Remove?) && WriteCheck(db, op).Pass?
    requires !Touches(op, key) && Agrees(e, db, key, value)
    ensures Agrees(e, TableAfter(db, op), key, value)
  {
    var id := if op.Create? then op.quest.id else op.id;
    assert TableAfter(db, op) - {id} == db - {id};
    OthersAgree(e, db, TableAfter(db, op), key, value, id);
  }

  lemma {:induction false} KeyWrite(e: Engine, s: State, op: Op, key: string)
    requires (op.Create? || op.Update? || op.Remove?) && KeyCoherent(e, s, key) && !FailsFor(op, key)
    ensures KeyCoherent(e, Next(e, s, op), key)
  {
    if WriteCheck(s.db, op).Pass? && !Touches(op, key) {
      if key in s.cache.primary { UntouchedAgrees(e, s.db, op, key, s.cache.primary[key]); }
      if key in s.cache.fallback { UntouchedAgrees(e, s.db, op, key, s.cache.fallback[key].value); }
    }
  }

  lemma {:induction false} KeyStep(e: Engine, s: State, op: Op, key: string)
    requires KeyCoherent(e, s, key) && !FailsFor(op, key)
    ensures KeyCoherent(e, Next(e, s, op), key)
  {
    if op.FindAll? || op.FindOne? {
      KeyRead(e, s, op, key);
    } else if op.Create? || op.Update? || op.Remove? {
      KeyWrite(e, s, op, key);
    }
  }

  lemma {:induction false} KeyRun(e: Engine, db: Table, ops: seq<Op>, key: string)
    requires forall op :: op in ops ==> !FailsFor(op, key)
    ensures KeyCoherent(e, Run(e, State(db, EMPTY_CACHE, 0), ops), key)
  {
    if ops == [] {
    } else {
      var init := ops[..|ops| - 1];
      assert forall op :: op in init ==> op in ops;
      assert ops[|ops| - 1] in ops;
      KeyRun(e, db, init, key);
      KeyStep(e, Run(e, State(db, EMPTY_CACHE, 0), init), ops[|ops| - 1], key);
    }
  }

  /**
   In any run, whatever faults it meets, a read whose own key no operation failed for answers
   as without a cache.
   */
  lemma {:induction false} FaultsStayLocal(e: Engine, db: Table, ops: seq<Op>, read: Op)
    requires read.FindAll? || read.FindOne?
    requires forall op :: op in ops ==> !FailsFor(op, KeyOf(read))
    ensures !Stale(e, Run(e, State(db, EMPTY_CACHE, 0), ops), read)
  {
    KeyRun(e, db, ops, KeyOf(read));
  }

  // ----- a restart -----

  /**
   A restart empties registry and fallback while the primary store keeps its entries: after
   the next write, though nothing fails in it, a listing is read stale exactly when the
   store held it and its answer has changed.
   */
  lemma StaleAfterRestartExactly(e: Engine, s: State, op: Op, q: ListQuery, outcome: SetOutcome)
    requires Coherent(e, s.db, s.cache)
    requires (op.Create? || op.Update? || op.Remove?) && op.fault == NO_FAULT && WriteCheck(s.db, op).Pass?
    ensures Stale(e, Next(e, Next(e, s, Restart), op), FindAll(q, false, outcome)) <==>
      ListKey(q) in s.cache.primary && e.answer(TableAfter(s.db, op), q) != e.answer(s.db, q)
  {
    var id := if op.Create? then op.quest.id else op.id;
    KeysApart(q, id, id);
    EntriesAgree(e, s, ListKey(q));
  }

  /** The changed quest itself is read right: its key is deleted without asking the registry. */
  lemma QuestRightAfterRestart(e: Engine, s: State, op: Op, outcome: SetOutcome)
    requires Coherent(e, s.db, s.cache)
    requires (op.Update? || op.Remove?) && op.fault == NO_FAULT && WriteCheck(s.db, op).Pass?
    ensures !Stale(e, Next(e, Next(e, s, Restart), op), FindOne(op.id, false, outcome))
  {
    DetailKeysApart(op.id, op.id);
  }

  // ----- a stale read in a run -----

  const EMPTY_PATCH := QuestPatch(None, None, None, None, None, None, None)

  lemma {:induction false} Then(e: Engine, s: State, ops: seq<Op>, op: Op)
    ensures Run(e, s, ops + [op]) == Next(e, Run(e, s, ops), op)
  {
    assert (ops + [op])[..|ops|] == ops;
  }

  lemma ThreeSteps(e: Engine, s: State, a: Op, b: Op, c: Op)
    ensures Run(e, s, [a, b, c]) == Next(e, Next(e, Next(e, s, a), b), c)
  {
    assert [] + [a] == [a] && [a] + [b] == [a, b] && [a, b] + [c] == [a, b, c];
    Then(e, s, [], a);
    Then(e, s, [a], b);
    Then(e, s, [a, b], c);
  }

  /** A quest created and then read is in the primary store. */
  lemma CreatedAndRead(e: Engine, quest: Quest)
    requires quest.startDate.None?
    ensures var start := State(map[], EMPTY_CACHE, 0);
      var s := Next(e, Next(e, start, Create(quest, false, NO_FAULT)), FindOne(quest.id, false, Stored));
      Coherent(e, s.db, s.cache) && s.db == map[quest.id := quest] && DetailKey(quest.id) in s.cache.primary
  {
    var start, create := State(map[], EMPTY_CACHE, 0), Create(quest, false, NO_FAULT);
    var s1 := Next(e, start, create);
    Step(e, start, create);
    assert s1.db == map[quest.id := quest] && s1.cache.primary == map[] && s1.cache.fallback == map[];
    Step(e, s1, FindOne(quest.id, false, Stored));
  }

  function Rename(quest: Quest, title: string, fault: Fault): Op {
    Update(quest.id, EMPTY_PATCH.(title := Some(title)), quest.createdBy, 0, false, fault)
  }

  lemma {:induction false} RenamedStale(e: Engine, s: State, quest: Quest, title: string)
    requires Coherent(e, s.db, s.cache) && s.db == map[quest.id := quest] && DetailKey(quest.id) in s.cache.primary
    requires title != quest.title
    ensures var s' := Next(e, s, Rename(quest, title, Fault(false, {DetailKey(quest.id)})));
      Stale(e, s', FindOne(quest.id, false, Stored))
  {
    StaleQuestExactly(e, s, Rename(quest, title, Fault(false, {DetailKey(quest.id)})), Stored);
  }

  /**
   A quest is created and read, then renamed while the deletion of its entry fails: from the
   start, in three calls, the next read is stale.
   */
  lemma {:induction false} StaleReadReached(e: Engine, quest: Quest, title: string) returns (ops: seq<Op>)
    requires quest.startDate.None? && title != quest.title
    ensures ops == [Create(quest, false, NO_FAULT), FindOne(quest.id, false, Stored),
                    Rename(quest, title, Fault(false, {DetailKey(quest.id)}))]
    ensures Stale(e, Run(e, State(map[], EMPTY_CACHE, 0), ops), FindOne(quest.id, false, Stored))
  {
    var start := State(map[], EMPTY_CACHE, 0);
    var create, read := Create(quest, false, NO_FAULT), FindOne(quest.id, false, Stored);
    var rename := Rename(quest, title, Fault(false, {DetailKey(quest.id)}));
    ops := [create, read, rename];
    ThreeSteps(e, start, create, read, rename);
    CreatedAndRead(e, quest);
    RenamedStale(e, Next(e, Next(e, start, create), read), quest, title);
  }

  /** An engine that only counts. */
  const COUNTING := Engine((db: Table, q: ListQuery) => ListPage([], |db|, 1, 10, 1))

  lemma ListedWhenEmpty(q: ListQuery)
    ensures var s := Next(COUNTING, State(map[], EMPTY_CACHE, 0), FindAll(q, false, Stored));
      Coherent(COUNTING, s.db, s.cache) && s.db == map[] && ListKey(q) in s.cache.primary
  {
    Step(COUNTING, State(map[], EMPTY_CACHE, 0), FindAll(q, false, Stored));
  }

  /** A listing read before a restart hides the quest created after it, though nothing fails. */
  lemma {:induction false} StaleAfterRestartReached(q: ListQuery, quest: Quest) returns (ops: seq<Op>)
    requires quest.startDate.None?
    ensures ops == [FindAll(q, false, Stored), Restart, Create(quest, false, NO_FAULT)]
    ensures Stale(COUNTING, Run(COUNTING, State(map[], EMPTY_CACHE, 0), ops), FindAll(q, false, Stored))
  {
    var start := State(map[], EMPTY_CACHE, 0);
    var list, create := FindAll(q, false, Stored), Create(quest, false, NO_FAULT);
    ops := [list, Restart, create];
    ThreeSteps(COUNTING, start, list, Restart, create);
    ListedWhenEmpty(q);
    HiddenQuest(Next(COUNTING, start, list), q, quest);
  }

  lemma HiddenQuest(s: State, q: ListQuery, quest: Quest)
    requires Coherent(COUNTING, s.db, s.cache) && s.db == map[] && ListKey(q) in s.cache.primary
    requires quest.startDate.None?
    ensures var s' := Next(COUNTING, Next(COUNTING, s, Restart), Create(quest, false, NO_FAULT));
      Stale(COUNTING, s', FindAll(q, false, Stored))
  {
    var create := Create(quest, false, NO_FAULT);
    assert TableAfter(s.db, create) == map[quest.id := quest];
    assert COUNTING.answer(TableAfter(s.db, create), q).total == 1 && COUNTING.answer(s.db, q).total == 0;
    StaleAfterRestartExactly(COUNTING, s, create, q, Stored);
  }
}
