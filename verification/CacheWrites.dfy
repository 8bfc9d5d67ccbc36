/**
 What the quest service accepts and what is then stored, with or without a cache: the rules
 on who may write what, row by row, and over whole runs.
 */
module CacheWrites {
  import opened Prelude
  import opened QueryKey
  import opened CacheSpec
  import opened CacheCoherence

  /** The call changed the table, whether or not its caller was told so. */
  predicate Saves(db: Table, op: Op)
    requires op.Create? || op.Update? || op.Remove?
  {
    WriteCheck(db, op).Pass?
  }

  /** Drafts are activated, active quests completed, and anything not yet archived may be archived. */
  predicate MayBecome(from: string, to: string) {
    || (from == "DRAFT" && to == "ACTIVE") || (from == "ACTIVE" && to == "COMPLETED")
    || ((from == "DRAFT" || from == "ACTIVE" || from == "COMPLETED") && to == "ARCHIVED")
  }

  /** Both dates, where both are given, with the end after the start. */
  predicate EndsLater(start: Option<int>, end: Option<int>) {
    start.None? || end.None? || start.value < end.value
  }

  // ----- one call -----

  lemma {:induction false} CreateSucceedsIff(e: Engine, s: State, quest: Quest, blocked: bool, fault: Fault)
    ensures var op := Create(quest, blocked, fault);
      var accepted := EndsLater(quest.startDate, quest.endDate) && !blocked && quest.id !in s.db;
      && Next(e, s, op).db == (if accepted then s.db[quest.id := quest] else s.db)
      && (ReplyTo(e, s, op) == Saved(View(quest)) <==> accepted && !fault.throws)
  {
  }

  /**
   An update is saved exactly when the quest exists, the caller created it, a new non-empty
   status may follow the present one, two given dates are in order and moderation lets it
   through. A throw after saving changes the reply, not what is saved.
   */
  lemma {:induction false} UpdateSucceedsIff(e: Engine, s: State, id: string, patch: QuestPatch, user: string, at: int,
      blocked: bool, fault: Fault)
    ensures var op := Update(id, patch, user, at, blocked, fault);
      var accepted :=
        && id in s.db && s.db[id].createdBy == user
        && (patch.status.None? || patch.status.value == "" || patch.status.value == s.db[id].status
            || MayBecome(s.db[id].status, patch.status.value))
        && EndsLater(patch.startDate, patch.endDate) && !blocked;
      && (Saves(s.db, op) <==> accepted)
      && (!accepted ==> Next(e, s, op) == s && ReplyTo(e, s, op).Refused?)
      && (accepted ==>
            && Next(e, s, op).db.Keys == s.db.Keys && Next(e, s, op).db - {id} == s.db - {id}
            && RowUpdated(s.db[id], Next(e, s, op).db[id], patch, at)
            && ReplyTo(e, s, op) == if fault.throws then Refused(Thrown) else Saved(View(Next(e, s, op).db[id])))
  {
  }

  /** The row field by field: what was given is taken, the rest and the identity of the quest stay. */
  ghost predicate RowUpdated(row: Quest, row': Quest, p: QuestPatch, at: int) {
    && row'.id == row.id && row'.createdBy == row.createdBy && row'.createdAt == row.createdAt
    && row'.title == (if p.title.Some? then p.title.value else row.title)
    && row'.description == (if p.description.Some? then p.description.value else row.description)
    && row'.reward == (if p.reward.Some? then p.reward.value else row.reward)
    && row'.status == (if p.status.Some? then p.status.value else row.status)
    && row'.maxCompletions == (if p.maxCompletions.Some? then p.maxCompletions else row.maxCompletions)
    && row'.startDate == (if p.startDate.Some? then p.startDate else row.startDate)
    && row'.endDate == (if p.endDate.Some? then p.endDate else row.endDate)
    && row'.updatedAt == (if SameContent(row, row') then row.updatedAt else at)
  }

  predicate SameContent(row: Quest, row': Quest) {
    && row'.title == row.title && row'.description == row.description && row'.reward == row.reward
    && row'.status == row.status && row'.maxCompletions == row.maxCompletions
    && row'.startDate == row.startDate && row'.endDate == row.endDate
  }

  /** A removal takes the quest's creator, and takes that quest alone. */
  lemma {:induction false} RemoveSucceedsIff(e: Engine, s: State, id: string, user: string, fault: Fault)
    ensures var op := Remove(id, user, fault);
      var accepted := id in s.db && s.db[id].createdBy == user;
      && Next(e, s, op).db == (if accepted then s.db - {id} else s.db)
      && (ReplyTo(e, s, op) == Gone <==> accepted && !fault.throws)
  {
  }

  /** What is wrong when a write is refused. */
  predicate WriteCause(db: Table, op: Op, error: WebError)
    requires op.Create? || op.Update? || op.Remove?
  {
    match error
    case NotFound => !op.Create? && op.id !in db
    case Forbidden => !op.Create? && op.id in db && db[op.id].createdBy != op.user
    case BadTransition =>
      op.Update? && op.id in db && op.patch.status.Some? && !MayBecome(db[op.id].status, op.patch.status.value)
    case BadDates =>
      || (op.Create? && !EndsLater(op.quest.startDate, op.quest.endDate))
      || (op.Update? && !EndsLater(op.patch.startDate, op.patch.endDate))
    case Blocked => !op.Remove? && op.blocked
    case DuplicateKey => op.Create? && op.quest.id in db
    case Thrown => op.fault.throws && Saves(db, op)
  }

  lemma {:induction false} ErrorsTellTheTruth(e: Engine, s: State, op: Op)
    requires op.Create? || op.Update? || op.Remove?
    requires ReplyTo(e, s, op).Refused?
    ensures WriteCause(s.db, op, ReplyTo(e, s, op).error)
  {
  }

  // ----- whole runs -----

  /** An update or removal of a quest by one user. */
  predicate WritesTo(op: Op, id: string, user: string) {
    (op.Update? || op.Remove?) && op.id == id && op.user == user
  }

  lemma {:induction false} OthersChangeNothing(e: Engine, s: State, op: Op, id: string)
    requires id in s.db && !WritesTo(op, id, s.db[id].createdBy)
    ensures id in Next(e, s, op).db && Next(e, s, op).db[id] == s.db[id]
  {
    if op.Update? {
      UpdateSucceedsIff(e, s, op.id, op.patch, op.user, op.at, op.blocked, op.fault);
    } else if op.Remove? {
      RemoveSucceedsIff(e, s, op.id, op.user, op.fault);
    } else if op.Create? {
      CreateSucceedsIff(e, s, op.quest, op.blocked, op.fault);
    }
  }

  /**
   Over every run, with any faults, a stored quest stays and stays as it is until its own
   creator updates or removes it, whatever anybody else calls.
   */
  lemma {:induction false} OnlyTheCreatorChangesIt(e: Engine, s: State, ops: seq<Op>, id: string)
    requires id in s.db && forall op :: op in ops ==> !WritesTo(op, id, s.db[id].createdBy)
    ensures id in Run(e, s, ops).db && Run(e, s, ops).db[id] == s.db[id]
  {
    if ops == [] {
    } else {
      var init := ops[..|ops| - 1];
      assert forall op :: op in init ==> op in ops;
      assert ops[|ops| - 1] in ops;
      OnlyTheCreatorChangesIt(e, s, init, id);
      OthersChangeNothing(e, Run(e, s, init), ops[|ops| - 1], id);
    }
  }

  /** The call neither creates nor removes the quest. */
  predicate Keeps(op: Op, id: string) {
    (op.Create? ==> op.quest.id != id) && (op.Remove? ==> op.id != id)
  }

  /** A status only moves on; the empty one, which the service does not test, ends the line. */
  predicate MovesOn(from: string, to: string) {
    || to == from || to == ""
    || (from == "DRAFT" && (to == "ACTIVE" || to == "COMPLETED" || to == "ARCHIVED"))
    || (from == "ACTIVE" && (to == "COMPLETED" || to == "ARCHIVED"))
    || (from == "COMPLETED" && to == "ARCHIVED")
  }

  /** What of a quest no update changes, and how far its status can go. */
  predicate RowEvolves(row: Quest, row': Quest) {
    && row'.id == row.id && row'.createdBy == row.createdBy && row'.createdAt == row.createdAt
    && MovesOn(row.status, row'.status)
  }

  lemma {:induction false} RowStep(e: Engine, s: State, op: Op, id: string)
    requires id in s.db && Keeps(op, id)
    ensures id in Next(e, s, op).db && RowEvolves(s.db[id], Next(e, s, op).db[id])
  {
    if op.Update? {
      UpdateSucceedsIff(e, s, op.id, op.patch, op.user, op.at, op.blocked, op.fault);
      if op.id != id { assert (s.db - {op.id})[id] == (Next(e, s, op).db - {op.id})[id]; }
    } else if op.Remove? {
      RemoveSucceedsIff(e, s, op.id, op.user, op.fault);
    } else if op.Create? {
      CreateSucceedsIff(e, s, op.quest, op.blocked, op.fault);
    }
  }

  /**
   Over every run a quest that is not removed keeps its id, its creator and its time of
   creation, and its status never moves back: what is archived stays so or loses its status.
   */
  lemma {:induction false} IdentityStays(e: Engine, s: State, ops: seq<Op>, id: string)
    requires id in s.db && forall op :: op in ops ==> Keeps(op, id)
    ensures id in Run(e, s, ops).db && RowEvolves(s.db[id], Run(e, s, ops).db[id])
  {
    if ops == [] {
    } else {
      var init := ops[..|ops| - 1];
      assert forall op :: op in init ==> op in ops;
      assert ops[|ops| - 1] in ops;
      IdentityStays(e, s, init, id);
      RowStep(e, Run(e, s, init), ops[|ops| - 1], id);
    }
  }

  /** The statuses a request may carry, in the spelling its validation demands. */
  predicate Declared(status: string) {
    status in {"draft", "active", "completed", "archived"}
  }

  predicate UsesDeclared(op: Op) {
    op.Update? && op.patch.status.Some? ==> Declared(op.patch.status.value)
  }

  lemma {:induction false} DeclaredStep(e: Engine, s: State, op: Op, id: string)
    requires id in s.db && Keeps(op, id) && UsesDeclared(op)
    ensures id in Next(e, s, op).db && Next(e, s, op).db[id].status == s.db[id].status
  {
    RowStep(e, s, op, id);
    if op.Update? {
      UpdateSucceedsIff(e, s, op.id, op.patch, op.user, op.at, op.blocked, op.fault);
      if op.id != id {
        assert (s.db - {op.id})[id] == (Next(e, s, op).db - {op.id})[id];
      } else if op.patch.status.Some? {
        DeclaredIsNoTarget(s.db[id].status, op.patch.status.value);
      }
    }
  }

  lemma {:induction false} DeclaredIsNoTarget(from: string, to: string)
    requires Declared(to)
    ensures !MayBecome(from, to) && to != ""
  {
    assert "ACTIVE"[0] == 'A' && "COMPLETED"[0] == 'C' && "ARCHIVED"[0] == 'A';
    assert to[0] == 'd' || to[0] == 'a' || to[0] == 'c';
  }

  /**
   The table of transitions is spelled in capitals, the statuses of a request are not: over
   every run whose updates carry declared statuses, no quest's status ever changes.
   */
  lemma {:induction false} DeclaredStatusNeverMoves(e: Engine, s: State, ops: seq<Op>, id: string)
    requires id in s.db && forall op :: op in ops ==> Keeps(op, id) && UsesDeclared(op)
    ensures id in Run(e, s, ops).db && Run(e, s, ops).db[id].status == s.db[id].status
  {
    if ops == [] {
    } else {
      var init := ops[..|ops| - 1];
      assert forall op :: op in init ==> op in ops;
      assert ops[|ops| - 1] in ops;
      DeclaredStatusNeverMoves(e, s, init, id);
      DeclaredStep(e, Run(e, s, init), ops[|ops| - 1], id);
    }
  }

  // ----- reads -----

  /** A coherent service shows of a stored quest exactly the fields of its row, and refuses any other. */
  lemma {:induction false} ReadShowsRow(e: Engine, s: State, id: string, fails: bool, outcome: SetOutcome)
    requires Coherent(e, s.db, s.cache)
    ensures match ReplyTo(e, s, FindOne(id, fails, outcome))
      case Found(DetailOf(v)) =>
        && id in s.db
        && var row := s.db[id];
           && v.id == row.id && v.title == row.title && v.description == row.description && v.reward == row.reward
           && v.status == row.status && v.createdBy == row.createdBy
           && v.createdAt == row.createdAt && v.updatedAt == row.updatedAt
      case Refused(error) => error == NotFound && id !in s.db
      case _ => false
  {
    Step(e, s, FindOne(id, fails, outcome));
  }
}
