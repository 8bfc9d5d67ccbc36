/** The cached service answers as the service without a cache would; and exactly when it does not. */
module CacheCoherence {
  import opened Prelude
  import opened QueryKey
  import opened CacheSpec

  // ----- keys -----

  lemma {:induction false} DetailKeysApart(id: string, other: string)
    ensures !(LISTS <= DetailKey(id))
    ensures DetailKey(id) == DetailKey(other) <==> id == other
  {
    assert DetailKey(id)[5] == '_';
    assert DetailKey(id)[13..] == id && DetailKey(other)[13..] == other;
  }

  /** Listings lie under the prefix that invalidation deletes, single quests do not, and ids keep their keys apart. */
  lemma {:induction false} KeysApart(q: ListQuery, id: string, other: string)
    ensures LISTS <= ListKey(q)
    ensures !(LISTS <= DetailKey(id))
    ensures DetailKey(id) == DetailKey(other) <==> id == other
  {
    assert ListKey(q)[..6] == LISTS;
    DetailKeysApart(id, other);
  }

  /** A listing's key belongs to one query alone. */
  lemma ListKeysApart(a: ListQuery, b: ListQuery)
    ensures ListKey(a) == ListKey(b) <==> a == b
  {
    assert ListKey(a)[7..] == Json(a) && ListKey(b)[7..] == Json(b);
    JsonInjective(a, b);
  }

  // ----- coherence -----

  /** The value is what the table answers now for whatever the key stands for. */
  ghost predicate Agrees(e: Engine, db: Table, key: string, value: Cached) {
    && (forall q :: key == ListKey(q) ==> value == PageOf(e.answer(db, q)))
    && (forall id :: key == DetailKey(id) ==> id in db && value == DetailOf(View(db[id])))
  }

  ghost predicate Coherent(e: Engine, db: Table, c: Cache) {
    && (forall key :: key in c.primary ==> key in c.registry && Agrees(e, db, key, c.primary[key]))
    && (forall key :: key in c.fallback ==> key in c.registry && Agrees(e, db, key, c.fallback[key].value))
  }

  lemma {:induction false} LookupAgrees(e: Engine, s: State, key: string, fails: bool)
    requires Coherent(e, s.db, s.cache)
    ensures Coherent(e, s.db, AfterLookup(s.cache, key, s.now, fails))
    ensures var hit := Lookup(s.cache, key, s.now, fails); hit.Some? ==> Agrees(e, s.db, key, hit.value)
  {
  }

  lemma ListAnswerAgrees(e: Engine, db: Table, q: ListQuery)
    ensures Agrees(e, db, ListKey(q), PageOf(e.answer(db, q)))
  {
    forall p | ListKey(q) == ListKey(p) ensures p == q { ListKeysApart(p, q); }
    forall id ensures ListKey(q) != DetailKey(id) { KeysApart(q, id, id); }
  }

  lemma {:induction false} DetailAnswerAgrees(e: Engine, db: Table, id: string)
    requires id in db
    ensures Agrees(e, db, DetailKey(id), DetailOf(View(db[id])))
  {
    forall q ensures ListKey(q) != DetailKey(id) { KeysApart(q, id, id); }
    forall other | DetailKey(id) == DetailKey(other) ensures id == other { DetailKeysApart(id, other); }
  }

  lemma {:induction false} SetCoherent(e: Engine, db: Table, c: Cache, key: string, value: Cached, ttl: nat,
      now: nat, outcome: SetOutcome)
    requires Coherent(e, db, c) && Agrees(e, db, key, value)
    ensures Coherent(e, db, AfterSet(c, key, value, ttl, now, outcome))
  {
  }

  /** An entry that is no listing and not of the changed quest agrees with the changed table. */
  lemma {:induction false} OthersAgree(e: Engine, db: Table, db': Table, key: string, value: Cached, id: string)
    requires Agrees(e, db, key, value)
    requires !(LISTS <= key)
    requires key == DetailKey(id) ==> id !in db
    requires db' - {id} == db - {id}
    ensures Agrees(e, db', key, value)
  {
    forall q ensures key != ListKey(q) { KeysApart(q, id, id); }
    forall other | key == DetailKey(other) ensures other in db' && value == DetailOf(View(db'[other])) {
      assert other in db && other != id;
      assert other in db - {id} && other in db' - {id};
      assert (db - {id})[other] == (db' - {id})[other];
    }
  }

  /** Dropping the listings, and the changed quest's entry if it had one, restores coherence. */
  lemma {:induction false} InvalidateCoherent(e: Engine, db: Table, db': Table, c: Cache, c': Cache, id: string)
    requires Coherent(e, db, c) && db' - {id} == db - {id}
    requires c' == AfterInvalidate(c, id, {}) || (id !in db && c' == AfterDelete(c, Registered(c, LISTS), {}))
    ensures Coherent(e, db', c')
  {
    DetailKeysApart(id, id);
    forall key | key in c'.primary ensures key in c'.registry && Agrees(e, db', key, c'.primary[key]) {
      OthersAgree(e, db, db', key, c.primary[key], id);
    }
    forall key | key in c'.fallback ensures key in c'.registry && Agrees(e, db', key, c'.fallback[key].value) {
      OthersAgree(e, db, db', key, c.fallback[key].value, id);
    }
  }

  // ----- every run -----

  predicate Faultless(op: Op) {
    && (op.Create? || op.Update? || op.Remove? ==> op.fault == NO_FAULT)
    && (op.Clear? ==> op.clearing == Reset(true) || op.clearing == KeyByKey({}))
    && !op.Restart?
  }

  lemma ReadStep(e: Engine, s: State, op: Op)
    requires Coherent(e, s.db, s.cache) && (op.FindAll? || op.FindOne?)
    ensures Coherent(e, s.db, Next(e, s, op).cache) && Next(e, s, op).db == s.db
    ensures ReplyTo(e, s, op) == DirectReply(e, s.db, op)
  {
    var key := if op.FindAll? then ListKey(op.query) else DetailKey(op.id);
    LookupAgrees(e, s, key, op.fails);
    var looked := AfterLookup(s.cache, key, s.now, op.fails);
    if op.FindAll? {
      ListAnswerAgrees(e, s.db, op.query);
      SetCoherent(e, s.db, looked, key, PageOf(e.answer(s.db, op.query)), LIST_TTL, s.now, op.outcome);
    } else if op.id in s.db {
      DetailAnswerAgrees(e, s.db, op.id);
      SetCoherent(e, s.db, looked, key, DetailOf(View(s.db[op.id])), DETAIL_TTL, s.now, op.outcome);
    }
  }

  lemma WriteStep(e: Engine, s: State, op: Op)
    requires Coherent(e, s.db, s.cache) && (op.Create? || op.Update? || op.Remove?) && op.fault == NO_FAULT
    ensures Coherent(e, Next(e, s, op).db, Next(e, s, op).cache)
    ensures Next(e, s, op).db == DirectNext(s.db, op) && ReplyTo(e, s, op) == DirectReply(e, s.db, op)
  {
    if WriteCheck(s.db, op).Pass? {
      var s' := Next(e, s, op);
      var id := if op.Create? then op.quest.id else op.id;
      assert s'.db - {id} == s.db - {id};
      InvalidateCoherent(e, s.db, s'.db, s.cache, s'.cache, id);
    }
  }

  lemma Step(e: Engine, s: State, op: Op)
    requires Coherent(e, s.db, s.cache) && Faultless(op)
    ensures Coherent(e, Next(e, s, op).db, Next(e, s, op).cache)
    ensures Next(e, s, op).db == DirectNext(s.db, op) && ReplyTo(e, s, op) == DirectReply(e, s.db, op)
  {
    if op.FindAll? || op.FindOne? {
      ReadStep(e, s, op);
    } else if op.Create? || op.Update? || op.Remove? {
      WriteStep(e, s, op);
    }
  }

  /**
   Over any run whose writes and clearings meet no fault, the service with the cache and the one without
   it answer every call alike and leave the same table, whatever entries are lost, whatever
   reads and sets of the primary store fail, and however long the fallback keeps its copies.
   */
  lemma {:induction false} CacheIsTransparent(e: Engine, db: Table, ops: seq<Op>)
    requires forall op :: op in ops ==> Faultless(op)
    ensures var s := State(db, EMPTY_CACHE, 0);
      && Replies(e, s, ops) == DirectReplies(e, db, ops)
      && Run(e, s, ops).db == DirectRun(db, ops)
      && Coherent(e, Run(e, s, ops).db, Run(e, s, ops).cache)
  {
    if ops == [] {
    } else {
      var init := ops[..|ops| - 1];
      assert forall op :: op in init ==> op in ops;
      CacheIsTransparent(e, db, init);
      Step(e, Run(e, State(db, EMPTY_CACHE, 0), init), ops[|ops| - 1]);
    }
  }

  // ----- the two faults -----

  /**
   What a faulty write leaves for the next read: after a throw every live entry, otherwise
   the entries the primary store holds and fails to delete.
   */
  predicate Survives(s: State, key: string, fault: Fault) {
    if fault.throws then key in s.cache.primary || (key in s.cache.fallback && Live(s.cache.fallback[key], s.now))
    else key in s.cache.primary && key in fault.broken
  }

  predicate Stale(e: Engine, s: State, read: Op) {
    ReplyTo(e, s, read) != DirectReply(e, s.db, read)
  }

  lemma {:induction false} EntriesAgree(e: Engine, s: State, key: string)
    requires Coherent(e, s.db, s.cache)
    ensures key in s.cache.primary ==> Agrees(e, s.db, key, s.cache.primary[key])
    ensures key in s.cache.fallback ==> Agrees(e, s.db, key, s.cache.fallback[key].value)
  {
  }

  /**
   After an update or a removal the quest is read stale exactly when its entry survives, and,
   for an update, what is shown of it has changed.
   */
  lemma StaleQuestExactly(e: Engine, s: State, op: Op, outcome: SetOutcome)
    requires Coherent(e, s.db, s.cache) && (op.Update? || op.Remove?) && WriteCheck(s.db, op).Pass?
    ensures Stale(e, Next(e, s, op), FindOne(op.id, false, outcome)) <==>
      && Survives(s, DetailKey(op.id), op.fault)
      && (op.Update? ==> View(Patched(s.db[op.id], op.patch, op.at)) != View(s.db[op.id]))
  {
    DetailKeysApart(op.id, op.id);
    EntriesAgree(e, s, DetailKey(op.id));
  }

  /** A new quest is never read stale: it had no entry that could survive. */
  lemma NewQuestNeverStale(e: Engine, s: State, op: Op, outcome: SetOutcome)
    requires Coherent(e, s.db, s.cache) && op.Create? && WriteCheck(s.db, op).Pass?
    ensures !Stale(e, Next(e, s, op), FindOne(op.quest.id, false, outcome))
  {
    DetailKeysApart(op.quest.id, op.quest.id);
    EntriesAgree(e, s, DetailKey(op.quest.id));
  }

  /** After any write a listing is read stale exactly when its entry survives and its answer has changed. */
  lemma StaleListingExactly(e: Engine, s: State, op: Op, q: ListQuery, outcome: SetOutcome)
    requires Coherent(e, s.db, s.cache) && (op.Create? || op.Update? || op.Remove?) && WriteCheck(s.db, op).Pass?
    ensures Stale(e, Next(e, s, op), FindAll(q, false, outcome)) <==>
      Survives(s, ListKey(q), op.fault) && e.answer(TableAfter(s.db, op), q) != e.answer(s.db, q)
  {
    var id := if op.Create? then op.quest.id else op.id;
    KeysApart(q, id, id);
    EntriesAgree(e, s, ListKey(q));
  }

  /**
   A failed deletion also forgets the key. From then on a listing the primary store still
   holds stays there, whatever is created, updated, removed or read, until the store drops
   it by itself or is reset.
   */
  lemma {:induction false} ForgottenListingStays(e: Engine, s: State, key: string, ops: seq<Op>)
    requires key in s.cache.primary && key !in s.cache.registry && LISTS <= key
    requires forall op :: op in ops ==>
      && (op.Lose? ==> key !in op.keys) && (op.FindAll? || op.FindOne? ==> !op.fails)
      && (op.Clear? ==> op.clearing != Reset(true))
    ensures var c := Run(e, s, ops).cache;
      key in c.primary && c.primary[key] == s.cache.primary[key] && key !in c.registry
  {
    if ops == [] {
    } else {
      var init := ops[..|ops| - 1];
      assert forall op :: op in init ==> op in ops;
      ForgottenListingStays(e, s, key, init);
      assert ops[|ops| - 1] in ops;
      StaysForgotten(e, Run(e, s, init), key, ops[|ops| - 1]);
    }
  }

  lemma {:induction false} StaysForgotten(e: Engine, s: State, key: string, op: Op)
    requires key in s.cache.primary && key !in s.cache.registry && LISTS <= key
    requires (op.Lose? ==> key !in op.keys) && (op.FindAll? || op.FindOne? ==> !op.fails)
    requires op.Clear? ==> op.clearing != Reset(true)
    ensures var c := Next(e, s, op).cache;
      key in c.primary && c.primary[key] == s.cache.primary[key] && key !in c.registry
  {
    if op.Update? || op.Remove? || op.FindOne? {
      DetailKeysApart(op.id, op.id);
    }
  }

  /** Deleting a key the primary store fails to delete is what forgets it. */
  lemma FailedDeleteForgets(e: Engine, s: State, q: ListQuery, op: Op)
    requires Coherent(e, s.db, s.cache) && ListKey(q) in s.cache.primary
    requires op.Create? || op.Update? || op.Remove?
    requires WriteCheck(s.db, op).Pass? && !op.fault.throws
    ensures var c := Next(e, s, op).cache;
      && ListKey(q) !in c.registry && ListKey(q) !in c.fallback
      && (ListKey(q) in c.primary <==> ListKey(q) in op.fault.broken)
  {
    var id := if op.Create? then op.quest.id else op.id;
    KeysApart(q, id, id);
  }

  /**
   Clearing forgets every registered key and every copy. Of the primary store a working reset
   leaves nothing, a failing one everything, and key-by-key deletion what was never registered
   or failed to go: of a coherent cache, the keys it failed for.
   */
  lemma ClearLeavesExactly(e: Engine, s: State, clearing: Clearing)
    requires Coherent(e, s.db, s.cache)
    ensures var c := Next(e, s, Clear(clearing)).cache;
      && c.registry == {} && c.fallback == map[]
      && forall key :: key in c.primary <==>
        && key in s.cache.primary
        && (clearing.Reset? ==> !clearing.works) && (clearing.KeyByKey? ==> key in clearing.broken)
  {
  }

  /** A listing copied into the fallback outlives the ten minutes asked for by a factor of a thousand. */
  lemma FallbackOutlivesLifetime(e: Engine, s: State, q: ListQuery, outcome: SetOutcome, ms: nat)
    requires Lookup(s.cache, ListKey(q), s.now, false).None?
    ensures var s1 := Next(e, s, FindAll(q, false, outcome));
      var s2 := Next(e, Next(e, s1, Lose({ListKey(q)})), Wait(ms));
      Lookup(s2.cache, ListKey(q), s2.now, false) ==
        (if ms < 600_000_000 then Some(PageOf(e.answer(s.db, q))) else None)
  {
  }

  /** So does the copy of a single quest its hour. */
  lemma FallbackOutlivesHour(e: Engine, s: State, id: string, outcome: SetOutcome, ms: nat)
    requires id in s.db && Lookup(s.cache, DetailKey(id), s.now, false).None?
    ensures var s1 := Next(e, s, FindOne(id, false, outcome));
      var s2 := Next(e, Next(e, s1, Lose({DetailKey(id)})), Wait(ms));
      Lookup(s2.cache, DetailKey(id), s2.now, false) ==
        (if ms < 3_600_000_000 then Some(DetailOf(View(s.db[id]))) else None)
  {
  }

  /** Looking for a quest that is gone drops its copy when the time of the copy is over, and serves it before. */
  lemma ExpiredCopyIsDropped(e: Engine, s: State, id: string, outcome: SetOutcome)
    requires id !in s.db && DetailKey(id) !in s.cache.primary && DetailKey(id) in s.cache.fallback
    ensures var copy, s' := s.cache.fallback[DetailKey(id)], Next(e, s, FindOne(id, false, outcome));
      var over := copy.expiresAt.Some? && copy.expiresAt.value <= s.now;
      && s' == s.(cache := s.cache.(
           fallback := if over then s.cache.fallback - {DetailKey(id)} else s.cache.fallback))
      && ReplyTo(e, s, FindOne(id, false, outcome)) == if over then Refused(NotFound) else Found(copy.value)
  {
  }
}
