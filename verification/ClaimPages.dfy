/** Listings over time: the index only grows, so what a reader has paged through stays where it was. */
module ClaimPages {
  import opened Prelude
  import opened ClaimTypes
  import opened ClaimSpec
  import opened ClaimInvariant
  import opened ClaimLifecycle
  import opened ClaimQueries

  // ----- the index grows at its end -----

  lemma {:induction false} RegistrationsAppend(s: State, creator: Address, items: seq<QuestInput>)
    ensures s.questIds <= RegisteredAll(s, creator, items).questIds
    decreases |items|
  {
    if items == [] {
    } else {
      RegistrationsAppend(Registered(s, creator, items[0]), creator, items[1..]);
    }
  }

  lemma SetUpAppends(s: State, auth: set<Address>, op: QuestOp)
    requires SetsUp(op) && QuestCheck(s, auth, op).Pass?
    ensures s.questIds <= QuestEffect(s, auth, op).questIds
  {
    if op.RegisterBatch? { RegistrationsAppend(s, op.creator, op.items); }
  }

  lemma WorkKeepsIndex(s: State, auth: set<Address>, op: QuestOp)
    requires !SetsUp(op) && QuestCheck(s, auth, op).Pass?
    ensures QuestEffect(s, auth, op).questIds == s.questIds
  {
    if op.ApproveBatch? { ApprovalsKeepRest(s, op.verifier, op.approvals); }
  }

  lemma QuestNextAppends(s: State, auth: set<Address>, op: QuestOp)
    ensures s.questIds <= Next(s, Tx(auth, OnQuest(op))).questIds
  {
    if QuestCheck(s, auth, op).Pass? {
      if SetsUp(op) { SetUpAppends(s, auth, op); } else { WorkKeepsIndex(s, auth, op); }
    }
  }

  lemma OthersKeepIndex(s: State, tx: Tx)
    requires !tx.call.OnQuest?
    ensures Next(s, tx).questIds == s.questIds
  {
    if Check(s, tx).Pass? {
      match tx.call
      case OnEscrow(op) => EscrowOpsKeep(s, tx.auth, op);
      case OnGuard(op) => GuardKeeps(s, tx.auth, op);
      case Outside(event) => OutsideKeeps(s, tx.auth, event);
    }
  }

  /** No run removes or moves a registered id. */
  lemma {:induction false} IndexAppendOnly(s: State, txs: seq<Tx>)
    ensures s.questIds <= Run(s, txs).questIds
  {
    if txs == [] {
    } else {
      var before, tx := Run(s, txs[..|txs| - 1]), txs[|txs| - 1];
      IndexAppendOnly(s, txs[..|txs| - 1]);
      if tx.call.OnQuest? { QuestNextAppends(before, tx.auth, tx.call.quest); } else { OthersKeepIndex(before, tx); }
      assert s.questIds <= before.questIds <= Next(before, tx).questIds;
    }
  }

  // ----- full pages stay -----

  function Ids(quests: seq<Quest>): seq<Symbol> {
    seq(|quests|, i requires 0 <= i < |quests| => quests[i].id)
  }

  lemma {:induction false} IdsOfPage(all: seq<Quest>, offset: nat, limit: nat)
    ensures Ids(Page(all, offset, limit)) == Page(Ids(all), offset, limit)
  {
  }

  /** Creator and reward of a quest never change, so neither does the listing of the same ids. */
  lemma {:induction false} SameIds(quests: map<Symbol, Quest>, quests': map<Symbol, Quest>, ids: seq<Symbol>,
      query: Query)
    requires !query.ByStatus? && QuestsEvolve(quests, quests') && forall q :: q in ids ==> q in quests
    ensures Ids(Filtered(quests', ids, query)) == Ids(Filtered(quests, ids, query))
    decreases |ids|
  {
    if ids == [] {
    } else {
      var init, q := ids[..|ids| - 1], ids[|ids| - 1];
      assert forall p :: p in init ==> p in ids;
      SameIds(quests, quests', init, query);
      assert q in ids && q in quests && q in quests';
      assert Matches(query, quests'[q]) == Matches(query, quests[q]);
      IdsSnoc(Filtered(quests, init, query), quests[q]);
      IdsSnoc(Filtered(quests', init, query), quests'[q]);
    }
  }

  lemma {:induction false} IdsSnoc(all: seq<Quest>, quest: Quest)
    ensures Ids(all + [quest]) == Ids(all) + [quest.id]
  {
  }

  lemma {:induction false} IdsPrefix(all: seq<Quest>, more: seq<Quest>)
    requires all <= more
    ensures Ids(all) <= Ids(more)
  {
  }

  /**
   A full page of the listing by creator or by reward lists the same quests for ever, in
   the same order, from any reachable state on.
   */
  lemma {:induction false} FullPageStays(txs: seq<Tx>, later: seq<Tx>, query: Query, offset: nat, limit: nat)
    requires !query.ByStatus?
    requires var s := Run(GENESIS, txs); |Page(Filtered(s.quests, s.questIds, query), offset, limit)| == limit
    ensures var s, s' := Run(GENESIS, txs), Run(Run(GENESIS, txs), later);
      Ids(Page(Filtered(s'.quests, s'.questIds, query), offset, limit)) ==
      Ids(Page(Filtered(s.quests, s.questIds, query), offset, limit))
  {
    var s, s' := Run(GENESIS, txs), Run(Run(GENESIS, txs), later);
    InvGenesis();
    InvRun(GENESIS, txs);
    EvolvesRun(s, later);
    IndexAppendOnly(s, later);
    PageKept(s.quests, s.questIds, s'.quests, s'.questIds, query, offset, limit);
  }

  lemma {:induction false} PageKept(quests: map<Symbol, Quest>, ids: seq<Symbol>,
                                    quests': map<Symbol, Quest>, ids': seq<Symbol>,
                                    query: Query, offset: nat, limit: nat)
    requires !query.ByStatus? && QuestsEvolve(quests, quests') && ids <= ids' && forall q :: q in ids ==> q in quests
    requires |Page(Filtered(quests, ids, query), offset, limit)| == limit
    ensures Ids(Page(Filtered(quests', ids', query), offset, limit)) ==
      Ids(Page(Filtered(quests, ids, query), offset, limit))
  {
    var all, more := Filtered(quests, ids, query), Filtered(quests', ids', query);
    assert ids'[..|ids|] == ids;
    FilteredPrefix(quests', ids', query, |ids|);
    IdsPrefix(Filtered(quests', ids, query), more);
    SameIds(quests, quests', ids, query);
    IdsOfPage(all, offset, limit);
    IdsOfPage(more, offset, limit);
    FullPage(Ids(all), Ids(more), offset, limit);
  }
}
