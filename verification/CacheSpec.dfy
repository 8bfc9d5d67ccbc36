/**
 The quest read cache of the backend: a primary store that may lose entries or fail, a
 registry of every key set, and a local fallback store, in front of the quest table.
 */
module CacheSpec {
  import opened Prelude
  import opened QueryKey

  // ----- the quest table -----

  datatype Quest = Quest(
    id: string, createdBy: string, title: string, description: string, reward: real, status: string,
    maxCompletions: Option<int>, startDate: Option<int>, endDate: Option<int>, createdAt: int, updatedAt: int)

  /** What the service shows of a quest. */
  datatype QuestView = QuestView(
    id: string, title: string, description: string, reward: real, status: string, createdBy: string,
    createdAt: int, updatedAt: int)

  function View(q: Quest): QuestView {
    QuestView(q.id, q.title, q.description, q.reward, q.status, q.createdBy, q.createdAt, q.updatedAt)
  }

  type Table = map<string, Quest>

  datatype ListPage = ListPage(data: seq<QuestView>, total: nat, page: int, limit: int, totalPages: int)

  /** The query engine: what it answers for a table and a query, taken as a given function. */
  datatype Engine = Engine(answer: (Table, ListQuery) -> ListPage)

  /** The fields an update brings; absent ones leave the quest as it is. */
  datatype QuestPatch = QuestPatch(
    title: Option<string>, description: Option<string>, reward: Option<real>, status: Option<string>,
    maxCompletions: Option<int>, startDate: Option<int>, endDate: Option<int>)

  /** A save that changes something also stamps the quest with the time of the update. */
  function Patched(q: Quest, p: QuestPatch, at: int): Quest {
    var q' := q.(title := OrElse(p.title, q.title), description := OrElse(p.description, q.description),
                 reward := OrElse(p.reward, q.reward), status := OrElse(p.status, q.status),
                 maxCompletions := if p.maxCompletions.Some? then p.maxCompletions else q.maxCompletions,
                 startDate := if p.startDate.Some? then p.startDate else q.startDate,
                 endDate := if p.endDate.Some? then p.endDate else q.endDate);
    if q' == q then q else q'.(updatedAt := at)
  }

  function OrElse<T>(o: Option<T>, default: T): T {
    if o.Some? then o.value else default
  }

  predicate StatusTransition(from: string, to: string) {
    || (from == "DRAFT" && (to == "ACTIVE" || to == "ARCHIVED"))
    || (from == "ACTIVE" && (to == "COMPLETED" || to == "ARCHIVED"))
    || (from == "COMPLETED" && to == "ARCHIVED")
  }

  predicate DatesInOrder(start: Option<int>, end: Option<int>) {
    start.Some? && end.Some? ==> start.value < end.value
  }

  // ----- the cache -----

  /** The prefixes "quests" and "quest_detail", and lifetimes in milliseconds. */
  const LISTS := "quests"
  const LIST_TTL: nat := 600 * 1000
  const DETAIL_TTL: nat := 3600 * 1000

  function ListKey(q: ListQuery): string {
    "quests:" + Json(q)
  }

  function DetailKey(id: string): string {
    "quest_detail:" + id
  }

  datatype Cached = PageOf(page: ListPage) | DetailOf(view: QuestView)

  datatype Fallback = Fallback(value: Cached, expiresAt: Option<nat>)

  datatype Cache = Cache(primary: map<string, Cached>, registry: set<string>, fallback: map<string, Fallback>)

  const EMPTY_CACHE := Cache(map[], {}, map[])

  predicate Live(f: Fallback, now: nat) {
    f.expiresAt.Some? ==> now < f.expiresAt.value
  }

  /** A failing primary store reads as a miss; a missing entry is looked for in the fallback. */
  function Lookup(c: Cache, key: string, now: nat, fails: bool): Option<Cached> {
    if fails then None
    else if key in c.primary then Some(c.primary[key])
    else if key in c.fallback && Live(c.fallback[key], now) then Some(c.fallback[key].value)
    else None
  }

  /** Looking up drops an expired fallback entry. */
  function AfterLookup(c: Cache, key: string, now: nat, fails: bool): Cache {
    if !fails && key !in c.primary && key in c.fallback && !Live(c.fallback[key], now)
    then c.(fallback := c.fallback - {key}) else c
  }

  /** Whether a set reached the primary store, and whether its caller was told so. */
  datatype SetOutcome = Stored | StoredButFailed | Lost

  /** The lifetime is already in milliseconds, and the fallback multiplies it by a thousand once more. */
  function FallbackExpiry(now: nat, ttl: nat): Option<nat> {
    if ttl == 0 then None else Some(now + ttl * 1000)
  }

  function AfterSet(c: Cache, key: string, value: Cached, ttl: nat, now: nat, outcome: SetOutcome): Cache {
    Cache(if outcome.Lost? then c.primary else c.primary[key := value],
          c.registry + {key},
          c.fallback[key := Fallback(value, FallbackExpiry(now, ttl))])
  }

  /** `broken` holds the keys whose deletion the primary store fails to carry out. */
  function AfterDelete(c: Cache, keys: set<string>, broken: set<string>): Cache {
    Cache(c.primary - (keys - broken), c.registry - keys, c.fallback - keys)
  }

  function Registered(c: Cache, prefix: string): set<string> {
    set key | key in c.registry && prefix <= key
  }

  /** Every change of a quest drops all listings, and the quest's own entry. */
  function AfterInvalidate(c: Cache, id: string, broken: set<string>): Cache {
    AfterDelete(AfterDelete(c, Registered(c, LISTS), broken), {DetailKey(id)}, broken)
  }

  /** How the primary store is cleared: by a reset that may fail, or key by key where it has none. */
  datatype Clearing = Reset(works: bool) | KeyByKey(broken: set<string>)

  /** A failure is swallowed, and everything else forgotten all the same. */
  function AfterClear(c: Cache, clearing: Clearing): Cache {
    match clearing
    case Reset(works) => if works then EMPTY_CACHE else EMPTY_CACHE.(primary := c.primary)
    case KeyByKey(broken) => EMPTY_CACHE.(primary := c.primary - (c.registry - broken))
  }

  // ----- operations -----

  /** What goes wrong during a write: a throw between saving and invalidating, failing deletions. */
  datatype Fault = Fault(throws: bool, broken: set<string>)

  const NO_FAULT := Fault(false, {})

  datatype Op =
    | FindAll(query: ListQuery, fails: bool, outcome: SetOutcome)
    | FindOne(id: string, fails: bool, outcome: SetOutcome)
    | Create(quest: Quest, blocked: bool, fault: Fault)
    | Update(id: string, patch: QuestPatch, user: string, at: int, blocked: bool, fault: Fault)
    | Remove(id: string, user: string, fault: Fault)
    | Clear(clearing: Clearing)
    | Restart
    | Lose(keys: set<string>)
    | Wait(ms: nat)

  datatype WebError = NotFound | Forbidden | BadTransition | BadDates | Blocked | DuplicateKey | Thrown

  datatype Reply = Found(value: Cached) | Saved(view: QuestView) | Gone | Quiet | Refused(error: WebError)

  datatype State = State(db: Table, cache: Cache, now: nat)

  function CreateCheck(db: Table, quest: Quest, blocked: bool): Outcome<WebError> {
    if !DatesInOrder(quest.startDate, quest.endDate) then Fail(BadDates) else
    :- Need(!blocked, Blocked);
    Need(quest.id !in db, DuplicateKey)
  }

  function UpdateCheck(db: Table, id: string, patch: QuestPatch, user: string, blocked: bool): Outcome<WebError> {
    if id !in db then Fail(NotFound) else
    :- Need(db[id].createdBy == user, Forbidden);
    :- Need(patch.status.Some? && patch.status.value != "" && patch.status.value != db[id].status
            ==> StatusTransition(db[id].status, patch.status.value), BadTransition);
    :- Need(DatesInOrder(patch.startDate, patch.endDate), BadDates);
    Need(!blocked, Blocked)
  }

  function RemoveCheck(db: Table, id: string, user: string): Outcome<WebError> {
    if id !in db then Fail(NotFound) else
    Need(db[id].createdBy == user, Forbidden)
  }

  function WriteCheck(db: Table, op: Op): Outcome<WebError>
    requires op.Create? || op.Update? || op.Remove?
  {
    match op
    case Create(quest, blocked, _) => CreateCheck(db, quest, blocked)
    case Update(id, patch, user, _, blocked, _) => UpdateCheck(db, id, patch, user, blocked)
    case Remove(id, user, _) => RemoveCheck(db, id, user)
  }

  function TableAfter(db: Table, op: Op): Table
    requires op.Create? || op.Update? || op.Remove?
    requires WriteCheck(db, op).Pass?
  {
    match op
    case Create(quest, _, _) => db[quest.id := quest]
    case Update(id, patch, _, at, _, _) => db[id := Patched(db[id], patch, at)]
    case Remove(id, _, _) => db - {id}
  }

  /** A creation drops only the listings: the new quest has no entry of its own yet. */
  function CacheAfter(c: Cache, op: Op): Cache
    requires op.Create? || op.Update? || op.Remove?
  {
    if op.fault.throws then c
    else if op.Create? then AfterDelete(c, Registered(c, LISTS), op.fault.broken)
    else AfterInvalidate(c, op.id, op.fault.broken)
  }

  function WriteReply(db: Table, op: Op): Reply
    requires op.Create? || op.Update? || op.Remove?
  {
    var verdict := WriteCheck(db, op);
    if verdict.Fail? then Refused(verdict.error)
    else if op.fault.throws then Refused(Thrown)
    else match op
      case Create(quest, _, _) => Saved(View(quest))
      case Update(id, patch, _, at, _, _) => Saved(View(Patched(db[id], patch, at)))
      case Remove(_, _, _) => Gone
  }

  /** A read asks the cache, then the table, and stores what it found. */
  function Next(e: Engine, s: State, op: Op): State {
    match op
    case FindAll(query, fails, outcome) =>
      var key := ListKey(query);
      var looked := AfterLookup(s.cache, key, s.now, fails);
      if Lookup(s.cache, key, s.now, fails).Some? then s.(cache := looked)
      else s.(cache := AfterSet(looked, key, PageOf(e.answer(s.db, query)), LIST_TTL, s.now, outcome))
    case FindOne(id, fails, outcome) =>
      var key := DetailKey(id);
      var looked := AfterLookup(s.cache, key, s.now, fails);
      if Lookup(s.cache, key, s.now, fails).Some? || id !in s.db then s.(cache := looked)
      else s.(cache := AfterSet(looked, key, DetailOf(View(s.db[id])), DETAIL_TTL, s.now, outcome))
    case Clear(clearing) => s.(cache := AfterClear(s.cache, clearing))
    case Restart => s.(cache := EMPTY_CACHE.(primary := s.cache.primary))
    case Lose(keys) => s.(cache := s.cache.(primary := s.cache.primary - keys))
    case Wait(ms) => s.(now := s.now + ms)
    case _ => if WriteCheck(s.db, op).Fail? then s else s.(db := TableAfter(s.db, op), cache := CacheAfter(s.cache, op))
  }

  function ReplyTo(e: Engine, s: State, op: Op): Reply {
    match op
    case FindAll(query, fails, _) =>
      var hit := Lookup(s.cache, ListKey(query), s.now, fails);
      if hit.Some? then Found(hit.value) else Found(PageOf(e.answer(s.db, query)))
    case FindOne(id, fails, _) =>
      var hit := Lookup(s.cache, DetailKey(id), s.now, fails);
      if hit.Some? then Found(hit.value) else if id in s.db then Found(DetailOf(View(s.db[id]))) else Refused(NotFound)
    case Clear(_) => Quiet
    case Restart => Quiet
    case Lose(_) => Quiet
    case Wait(_) => Quiet
    case _ => WriteReply(s.db, op)
  }

  function Run(e: Engine, s: State, ops: seq<Op>): State {
    if ops == [] then s else Next(e, Run(e, s, ops[..|ops| - 1]), ops[|ops| - 1])
  }

  function Replies(e: Engine, s: State, ops: seq<Op>): seq<Reply> {
    if ops == [] then []
    else Replies(e, s, ops[..|ops| - 1]) + [ReplyTo(e, Run(e, s, ops[..|ops| - 1]), ops[|ops| - 1])]
  }

  // ----- the service without a cache -----

  function DirectNext(db: Table, op: Op): Table {
    if (op.Create? || op.Update? || op.Remove?) && WriteCheck(db, op).Pass? then TableAfter(db, op) else db
  }

  function DirectReply(e: Engine, db: Table, op: Op): Reply {
    match op
    case FindAll(query, _, _) => Found(PageOf(e.answer(db, query)))
    case FindOne(id, _, _) => if id in db then Found(DetailOf(View(db[id]))) else Refused(NotFound)
    case Clear(_) => Quiet
    case Restart => Quiet
    case Lose(_) => Quiet
    case Wait(_) => Quiet
    case _ => WriteReply(db, op)
  }

  function DirectRun(db: Table, ops: seq<Op>): Table {
    if ops == [] then db else DirectNext(DirectRun(db, ops[..|ops| - 1]), ops[|ops| - 1])
  }

  function DirectReplies(e: Engine, db: Table, ops: seq<Op>): seq<Reply> {
    if ops == [] then []
    else DirectReplies(e, db, ops[..|ops| - 1]) + [DirectReply(e, DirectRun(db, ops[..|ops| - 1]), ops[|ops| - 1])]
  }
}
