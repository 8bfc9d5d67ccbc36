/** The paginated listings of the contract with a claim step. */
module ClaimQueries {
  import opened Prelude
  import opened ClaimTypes
  import opened ClaimSpec
  import opened ClaimInvariant

  datatype Query = ByStatus(status: QuestStatus) | ByCreator(creator: Address) | ByReward(min: i128, max: i128)

  predicate Matches(query: Query, quest: Quest) {
    match query
    case ByStatus(status) => quest.status == status
    case ByCreator(creator) => quest.creator == creator
    case ByReward(min, max) => min <= quest.reward <= max
  }

  /** All matching quests, in the order of the ids. */
  function Filtered(quests: map<Symbol, Quest>, ids: seq<Symbol>, query: Query): seq<Quest> {
    if ids == [] then [] else
      var rest := Filtered(quests, ids[..|ids| - 1], query);
      var q := ids[|ids| - 1];
      if q in quests && Matches(query, quests[q]) then rest + [quests[q]] else rest
  }

  function Min(a: nat, b: nat): nat {
    if a <= b then a else b
  }

  /** Drop `offset` elements, then take at most `limit`. */
  function Page<T>(all: seq<T>, offset: nat, limit: nat): seq<T> {
    var rest := all[Min(offset, |all|)..];
    rest[..Min(limit, |rest|)]
  }

  // ----- one more element, and stopping early -----

  lemma {:induction false} PageSnoc<T>(all: seq<T>, x: T, offset: nat, limit: nat)
    ensures Page(all + [x], offset, limit) ==
      if |all| >= offset && |all| - offset < limit then Page(all, offset, limit) + [x] else Page(all, offset, limit)
  {
  }

  /** A full page is not changed by what follows. */
  lemma {:induction false} FullPage<T>(all: seq<T>, more: seq<T>, offset: nat, limit: nat)
    requires |Page(all, offset, limit)| == limit && all <= more
    ensures Page(more, offset, limit) == Page(all, offset, limit)
  {
    assert limit == 0 || more[..|all|] == all;
  }

  lemma {:induction false} FilteredPrefix(quests: map<Symbol, Quest>, ids: seq<Symbol>, query: Query, i: nat)
    requires i <= |ids|
    ensures Filtered(quests, ids[..i], query) <= Filtered(quests, ids, query)
    decreases |ids|
  {
    if i < |ids| {
      FilteredPrefix(quests, ids[..|ids| - 1], query, i);
      assert ids[..|ids| - 1][..i] == ids[..i];
    } else {
      assert ids[..i] == ids;
    }
  }

  // ----- pages cover the listing -----

  /** Two adjacent pages are the larger page. */
  lemma {:induction false} PagesConcatenate<T>(all: seq<T>, offset: nat, first: nat, second: nat)
    ensures Page(all, offset, first) + Page(all, offset + first, second) == Page(all, offset, first + second)
  {
  }

  /** Pages of one size, read until past the end, give the whole listing. */
  function AllPages<T>(all: seq<T>, size: nat, count: nat): seq<T> {
    if count == 0 then [] else AllPages(all, size, count - 1) + Page(all, size * (count - 1), size)
  }

  lemma {:induction false} PagesCoverListing<T>(all: seq<T>, size: nat, count: nat)
    ensures AllPages(all, size, count) == Page(all, 0, size * count)
    ensures |all| <= size * count ==> AllPages(all, size, count) == all
  {
    if count == 0 {
    } else {
      PagesCoverListing(all, size, count - 1);
      PagesConcatenate(all, 0, size * (count - 1), size);
      assert size * (count - 1) + size == size * count;
    }
  }

  // ----- what the listing contains -----

  lemma {:induction false} FilteredMembers(quests: map<Symbol, Quest>, ids: seq<Symbol>, query: Query, quest: Quest)
    ensures quest in Filtered(quests, ids, query) <==>
      exists q :: q in ids && q in quests && quests[q] == quest && Matches(query, quest)
    decreases |ids|
  {
    if ids == [] {
    } else {
      var init, q := ids[..|ids| - 1], ids[|ids| - 1];
      FilteredMembers(quests, init, query, quest);
      assert ids == init + [q];
    }
  }

  predicate Distinct<T(==)>(s: seq<T>) {
    forall i, j :: 0 <= i < j < |s| ==> s[i] != s[j]
  }

  lemma {:induction false} DistinctSnoc<T>(s: seq<T>, x: T)
    requires Distinct(s) && x !in s
    ensures Distinct(s + [x])
  {
    forall i, j | 0 <= i < j < |s| + 1 ensures (s + [x])[i] != (s + [x])[j] {
      assert s[i] in s;
    }
  }

  lemma {:induction false} FilteredDistinct(quests: map<Symbol, Quest>, ids: seq<Symbol>, query: Query)
    requires Distinct(ids)
    requires forall q :: q in quests ==> quests[q].id == q
    ensures Distinct(Filtered(quests, ids, query))
    decreases |ids|
  {
    if ids == [] {
    } else {
      var init, q := ids[..|ids| - 1], ids[|ids| - 1];
      assert forall i :: 0 <= i < |init| ==> init[i] == ids[i];
      FilteredDistinct(quests, init, query);
      if q in quests && Matches(query, quests[q]) {
        FilteredMembers(quests, init, query, quests[q]);
        DistinctSnoc(Filtered(quests, init, query), quests[q]);
      }
    }
  }

  /** In every reachable state a listing holds each stored matching quest exactly once and nothing else. */
  lemma {:induction false} ListingIsExact(txs: seq<Tx>, query: Query)
    ensures var s := Run(GENESIS, txs);
      var listing := Filtered(s.quests, s.questIds, query);
      && (forall quest :: quest in listing <==> quest in s.quests.Values && Matches(query, quest))
      && Distinct(listing)
  {
    InvGenesis();
    InvRun(GENESIS, txs);
    var s := Run(GENESIS, txs);
    FilteredDistinct(s.quests, s.questIds, query);
    var listing := Filtered(s.quests, s.questIds, query);
    forall quest ensures quest in listing <==> quest in s.quests.Values && Matches(query, quest) {
      FilteredMembers(s.quests, s.questIds, query, quest);
    }
  }

  // ----- each listing in its own terms -----

  /** In every reachable state the listing by status holds a quest exactly when it is stored with that very status. */
  lemma {:induction false} ListedByStatus(txs: seq<Tx>, status: QuestStatus, quest: Quest)
    ensures var s := Run(GENESIS, txs);
      quest in Filtered(s.quests, s.questIds, ByStatus(status)) <==>
        quest.id in s.quests && s.quests[quest.id] == quest && quest.status == status
  {
    InvGenesis();
    InvRun(GENESIS, txs);
    ListingIsExact(txs, ByStatus(status));
  }

  lemma {:induction false} ListedByCreator(txs: seq<Tx>, creator: Address, quest: Quest)
    ensures var s := Run(GENESIS, txs);
      quest in Filtered(s.quests, s.questIds, ByCreator(creator)) <==>
        quest.id in s.quests && s.quests[quest.id] == quest && quest.creator == creator
  {
    InvGenesis();
    InvRun(GENESIS, txs);
    ListingIsExact(txs, ByCreator(creator));
  }

  /** Both ends of the range are listed. */
  lemma {:induction false} ListedByReward(txs: seq<Tx>, min: i128, max: i128, quest: Quest)
    ensures var s := Run(GENESIS, txs);
      quest in Filtered(s.quests, s.questIds, ByReward(min, max)) <==>
        quest.id in s.quests && s.quests[quest.id] == quest && min <= quest.reward && quest.reward <= max
  {
    InvGenesis();
    InvRun(GENESIS, txs);
    ListingIsExact(txs, ByReward(min, max));
  }

  /** A page lists stored quests only, and only what was asked for. */
  lemma {:induction false} PageOfMatches(quests: map<Symbol, Quest>, ids: seq<Symbol>, query: Query,
      offset: nat, limit: nat)
    ensures var page := Page(Filtered(quests, ids, query), offset, limit);
      |page| <= limit && forall quest :: quest in page ==> quest in quests.Values && Matches(query, quest)
  {
    var all := Filtered(quests, ids, query);
    forall quest | quest in Page(all, offset, limit) ensures quest in quests.Values && Matches(query, quest) {
      FilteredMembers(quests, ids, query, quest);
    }
  }
}
