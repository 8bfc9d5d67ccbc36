/** The cache service and the quest service in front of the table, updated in place as in the backend. */
module CacheServices {
  import opened Prelude
  import opened QueryKey
  import opened CacheSpec
  import opened CacheCoherence
  import CacheWrites

  function Elements(keys: seq<string>): set<string> {
    set key | key in keys
  }

  lemma {:induction false} DeleteNone(c: Cache, broken: set<string>)
    ensures AfterDelete(c, {}, broken) == c
  {
  }

  lemma {:induction false} DeleteMore(c: Cache, keys: set<string>, key: string, broken: set<string>)
    ensures AfterDelete(AfterDelete(c, keys, broken), {key}, broken) == AfterDelete(c, keys + {key}, broken)
  {
    assert c.primary - (keys - broken) - ({key} - broken) == c.primary - (keys + {key} - broken);
    assert c.fallback - keys - {key} == c.fallback - (keys + {key});
    assert c.registry - keys - {key} == c.registry - (keys + {key});
  }

  class CacheService {
    var primary: map<string, Cached>  // the cache manager's store
    var keyRegistry: set<string>
    var localFallbackStore: map<string, Fallback>

    function Abs(): Cache
      reads this
    {
      Cache(primary, keyRegistry, localFallbackStore)
    }

    constructor ()
      ensures Abs() == EMPTY_CACHE
    {
      primary, keyRegistry, localFallbackStore := map[], {}, map[];
    }

    method Get(key: string, now: nat, fails: bool) returns (r: Option<Cached>)
      modifies this
      ensures r == Lookup(old(Abs()), key, now, fails)
      ensures Abs() == AfterLookup(old(Abs()), key, now, fails)
    {
      if fails { return None; }
      if key in primary { return Some(primary[key]); }
      if key in localFallbackStore {
        var f := localFallbackStore[key];
        if f.expiresAt.None? || f.expiresAt.value > now {
          return Some(f.value);
        } else {
          localFallbackStore := localFallbackStore - {key};
        }
      }
      return None;
    }

    method Set(key: string, value: Cached, ttl: nat, now: nat, outcome: SetOutcome)
      modifies this
      ensures Abs() == AfterSet(old(Abs()), key, value, ttl, now, outcome)
    {
      if !outcome.Lost? { primary := primary[key := value]; }
      // The branch for a failed set repeats these steps.
      keyRegistry := keyRegistry + {key};
      var expiresAt := if ttl != 0 then Some(now + ttl * 1000) else None;
      localFallbackStore := localFallbackStore[key := Fallback(value, expiresAt)];
    }

    method Del(key: string, broken: set<string>)
      modifies this
      ensures Abs() == AfterDelete(old(Abs()), {key}, broken)
    {
      if key !in broken { primary := primary - {key}; }
      keyRegistry := keyRegistry - {key};
      localFallbackStore := localFallbackStore - {key};
      assert primary == old(primary) - ({key} - broken);
    }

    /** Collects the registered keys with the prefix, then deletes each. */
    method DeletePattern(pattern: string, broken: set<string>)
      modifies this
      ensures Abs() == AfterDelete(old(Abs()), CacheSpec.Registered(old(Abs()), pattern), broken)
    {
      var toDelete := Matching(pattern);
      DeleteEach(toDelete, broken);
      assert Elements(toDelete) == CacheSpec.Registered(old(Abs()), pattern);
    }

    /** The keys come in whatever order the set yields them. */
    method Matching(pattern: string) returns (keys: seq<string>)
      ensures forall key :: key in keys <==> key in keyRegistry && pattern <= key
    {
      keys := [];
      var rest := keyRegistry;
      while rest != {}
        invariant rest <= keyRegistry
        invariant forall key :: key in keys <==> key in keyRegistry - rest && pattern <= key
        decreases |rest|
      {
        var key :| key in rest;
        if pattern <= key { keys := keys + [key]; }
        rest := rest - {key};
      }
    }

    method DeleteEach(keys: seq<string>, broken: set<string>)
      modifies this
      ensures Abs() == AfterDelete(old(Abs()), Elements(keys), broken)
    {
      ghost var before := Abs();
      DeleteNone(before, broken);
      assert Elements(keys[..0]) == {};
      for i := 0 to |keys|
        invariant Abs() == AfterDelete(before, Elements(keys[..i]), broken)
      {
        Del(keys[i], broken);
        DeleteMore(before, Elements(keys[..i]), keys[i], broken);
        assert Elements(keys[..i + 1]) == Elements(keys[..i]) + {keys[i]};
      }
      assert keys[..|keys|] == keys;
    }

    method Clear(clearing: Clearing)
      modifies this
      ensures Abs() == AfterClear(old(Abs()), clearing)
    {
      match clearing {
        case Reset(works) =>
          if works { primary := map[]; }
        case KeyByKey(broken) =>
          primary := primary - (keyRegistry - broken);
      }
      keyRegistry := {};
      localFallbackStore := map[];
    }
  }

  class QuestsService {
    const engine: Engine
    const cacheService: CacheService
    var questRepository: Table
    var clock: nat

    function Abs(): State
      reads this, cacheService
    {
      State(questRepository, cacheService.Abs(), clock)
    }

    /** Every cached entry is what the table answers. */
    ghost predicate Valid()
      reads this, cacheService
    {
      Coherent(engine, questRepository, cacheService.Abs())
    }

    constructor (engine: Engine, table: Table)
      ensures Valid() && fresh(cacheService) && this.engine == engine
      ensures Abs() == State(table, EMPTY_CACHE, 0)
    {
      this.engine := engine;
      cacheService := new CacheService();
      questRepository := table;
      clock := 0;
    }

    method FindAll(query: ListQuery, fails: bool, outcome: SetOutcome) returns (r: Reply)
      modifies cacheService
      ensures Abs() == Next(engine, old(Abs()), CacheSpec.FindAll(query, fails, outcome))
      ensures r == ReplyTo(engine, old(Abs()), CacheSpec.FindAll(query, fails, outcome))
      ensures old(Valid()) ==> Valid() && r == Found(PageOf(engine.answer(questRepository, query)))
    {
      if Valid() { Step(engine, Abs(), CacheSpec.FindAll(query, fails, outcome)); }
      var cacheKey := "quests:" + Json(query);
      var cached := cacheService.Get(cacheKey, clock, fails);
      if cached.Some? { return Found(cached.value); }
      var result := PageOf(engine.answer(questRepository, query));
      cacheService.Set(cacheKey, result, LIST_TTL, clock, outcome);
      return Found(result);
    }

    method FindOne(id: string, fails: bool, outcome: SetOutcome) returns (r: Reply)
      modifies cacheService
      ensures Abs() == Next(engine, old(Abs()), CacheSpec.FindOne(id, fails, outcome))
      ensures r == ReplyTo(engine, old(Abs()), CacheSpec.FindOne(id, fails, outcome))
      ensures old(Valid()) ==> Valid()
      ensures old(Valid()) ==>
        r == if id in questRepository then Found(DetailOf(View(questRepository[id]))) else Refused(NotFound)
    {
      if Valid() { Step(engine, Abs(), CacheSpec.FindOne(id, fails, outcome)); }
      var cacheKey := "quest_detail:" + id;
      var cached := cacheService.Get(cacheKey, clock, fails);
      if cached.Some? { return Found(cached.value); }
      if id !in questRepository { return Refused(NotFound); }
      var result := DetailOf(View(questRepository[id]));
      cacheService.Set(cacheKey, result, DETAIL_TTL, clock, outcome);
      return Found(result);
    }

    /** A write leaves a valid service valid unless it meets a fault. */
    method Create(quest: Quest, blocked: bool, fault: Fault) returns (r: Reply)
      modifies this, cacheService
      ensures old(Valid()) && fault == NO_FAULT ==> Valid()
      ensures Abs() == Next(engine, old(Abs()), CacheSpec.Create(quest, blocked, fault))
      ensures r == WriteReply(old(questRepository), CacheSpec.Create(quest, blocked, fault))
    {
      if Valid() && fault == NO_FAULT { Step(engine, Abs(), CacheSpec.Create(quest, blocked, fault)); }
      if quest.startDate.Some? && quest.endDate.Some? {
        if quest.endDate.value <= quest.startDate.value { return Refused(BadDates); }
      }
      if blocked { return Refused(Blocked); }
      if quest.id in questRepository { return Refused(DuplicateKey); }
      questRepository := questRepository[quest.id := quest];
      if fault.throws { return Refused(Thrown); }
      cacheService.DeletePattern("quests", fault.broken);
      return Saved(View(quest));
    }

    method Update(id: string, patch: QuestPatch, user: string, at: int, blocked: bool, fault: Fault) returns (r: Reply)
      modifies this, cacheService
      ensures old(Valid()) && fault == NO_FAULT ==> Valid()
      ensures Abs() == Next(engine, old(Abs()), CacheSpec.Update(id, patch, user, at, blocked, fault))
      ensures r == WriteReply(old(questRepository), CacheSpec.Update(id, patch, user, at, blocked, fault))
      ensures questRepository != old(questRepository) ==>
        id in old(questRepository) && old(questRepository)[id].createdBy == user
      ensures r.Saved? ==>
        && id in old(questRepository) && old(questRepository)[id].createdBy == user && !blocked
        && id in questRepository && questRepository - {id} == old(questRepository) - {id}
        && CacheWrites.RowUpdated(old(questRepository)[id], questRepository[id], patch, at)
        && r.view == View(questRepository[id])
    {
      CacheWrites.UpdateSucceedsIff(engine, Abs(), id, patch, user, at, blocked, fault);
      if Valid() && fault == NO_FAULT { Step(engine, Abs(), CacheSpec.Update(id, patch, user, at, blocked, fault)); }
      if id !in questRepository { return Refused(NotFound); }
      var quest := questRepository[id];
      if quest.createdBy != user { return Refused(Forbidden); }
      if patch.status.Some? && patch.status.value != "" && patch.status.value != quest.status {
        var allowed := ValidateStatusTransition(quest.status, patch.status.value);
        if !allowed { return Refused(BadTransition); }
      }
      if patch.startDate.Some? && patch.endDate.Some? {
        if patch.endDate.value <= patch.startDate.value { return Refused(BadDates); }
      }
      if blocked { return Refused(Blocked); }
      quest := Patched(quest, patch, at);
      questRepository := questRepository[id := quest];
      if fault.throws { return Refused(Thrown); }
      cacheService.DeletePattern("quests", fault.broken);
      cacheService.Del("quest_detail:" + id, fault.broken);
      return Saved(View(quest));
    }

    method Remove(id: string, user: string, fault: Fault) returns (r: Reply)
      modifies this, cacheService
      ensures old(Valid()) && fault == NO_FAULT ==> Valid()
      ensures Abs() == Next(engine, old(Abs()), CacheSpec.Remove(id, user, fault))
      ensures r == WriteReply(old(questRepository), CacheSpec.Remove(id, user, fault))
      ensures questRepository == old(questRepository)
        || (id in old(questRepository) && old(questRepository)[id].createdBy == user
            && questRepository == old(questRepository) - {id})
    {
      if Valid() && fault == NO_FAULT { Step(engine, Abs(), CacheSpec.Remove(id, user, fault)); }
      if id !in questRepository { return Refused(NotFound); }
      if questRepository[id].createdBy != user { return Refused(Forbidden); }
      questRepository := questRepository - {id};
      if fault.throws { return Refused(Thrown); }
      cacheService.DeletePattern("quests", fault.broken);
      cacheService.Del("quest_detail:" + id, fault.broken);
      return Gone;
    }

    method ValidateStatusTransition(current: string, next: string) returns (allowed: bool)
      ensures allowed <==> StatusTransition(current, next)
    {
      var validTransitions := map[
        "DRAFT" := ["ACTIVE", "ARCHIVED"], "ACTIVE" := ["COMPLETED", "ARCHIVED"],
        "COMPLETED" := ["ARCHIVED"], "ARCHIVED" := []];
      allowed := current in validTransitions && next in validTransitions[current];
    }
  }
}
