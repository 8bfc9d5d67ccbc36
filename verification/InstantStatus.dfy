/** What the first contract's comments promise of quest status and level, and exactly when it holds. */
module InstantStatus {
  import opened Prelude
  import opened InstantTypes
  import opened InstantSpec
  import opened InstantInvariant
  import opened InstantRuns

  // ----- a terminal status -----

  /** The call that turns a cancelled quest into an expired one. */
  predicate ExpiresCancelled(s: State, tx: Tx, q: Symbol)
    requires q in s.quests
  {
    && s.quests[q].status.Cancelled? && tx.call == OnQuest(Expire(q, s.quests[q].creator))
    && Signed(tx.auth, s.quests[q].creator)
  }

  lemma TerminalChangedBy(s: State, auth: set<Address>, op: QuestOp, q: Symbol)
    requires QuestCheck(s, auth, op).Pass? && q in s.quests && Terminal(s.quests[q].status)
    ensures var s' := QuestEffect(s, auth, op);
      q in s'.quests && (s'.quests[q].status != s.quests[q].status <==> ExpiresCancelled(s, Tx(auth, OnQuest(op)), q))
  {
  }

  lemma TerminalChangedNext(s: State, auth: set<Address>, op: QuestOp, q: Symbol)
    requires q in s.quests && Terminal(s.quests[q].status)
    ensures var s' := Next(s, Tx(auth, OnQuest(op)));
      q in s'.quests && (s'.quests[q].status != s.quests[q].status <==> ExpiresCancelled(s, Tx(auth, OnQuest(op)), q))
  {
    if QuestCheck(s, auth, op).Pass? { TerminalChangedBy(s, auth, op, q); }
  }

  /** A terminal status changes exactly when the creator of a cancelled quest expires it, and then to expired. */
  lemma TerminalChangesIff(s: State, tx: Tx, q: Symbol)
    requires q in s.quests && Terminal(s.quests[q].status)
    ensures q in Next(s, tx).quests
    ensures Next(s, tx).quests[q].status != s.quests[q].status <==> ExpiresCancelled(s, tx, q)
    ensures ExpiresCancelled(s, tx, q) ==> Next(s, tx).quests[q].status == Expired
  {
    match tx.call
    case OnQuest(op) => TerminalChangedNext(s, tx.auth, op, q);
    case OnEscrow(op) => EscrowKeeps(s, tx.auth, op);
    case Control(op) => ControlKeeps(s, tx.auth, op);
    case Outside(event) => OutsideKeeps(s, tx.auth, event);
  }

  const CREATOR := Account(1)
  const VERIFIER := Account(2)
  const OPEN := Tx({CREATOR}, OnQuest(Register("q", CREATOR, Account(3), 10, VERIFIER, 100, 1)))
  const CALL_OFF := Tx({CREATOR}, OnQuest(Cancel("q", CREATOR)))
  const EXPIRE := Tx({CREATOR}, OnQuest(Expire("q", CREATOR)))

  lemma {:induction false} Then(txs: seq<Tx>, tx: Tx)
    ensures Run(GENESIS, txs + [tx]) == Next(Run(GENESIS, txs), tx)
  {
    assert (txs + [tx])[..|txs|] == txs;
  }

  /** A quest is cancelled and then expired, a hundred seconds before its deadline. */
  lemma {:induction false} CancelledThenExpired() returns (txs: seq<Tx>)
    ensures var s := Run(GENESIS, txs);
      && "q" in s.quests && s.quests["q"].status == Cancelled && s.now == 0 && s.quests["q"].deadline == 100
      && Check(s, EXPIRE).Pass? && Next(s, EXPIRE).quests["q"].status == Expired
  {
    Then([], OPEN);
    txs := [] + [OPEN];
    assert Run(GENESIS, []) == GENESIS;
    Then(txs, CALL_OFF);
    txs := txs + [CALL_OFF];
    TerminalChangesIff(Run(GENESIS, txs), EXPIRE, "q");
  }

  // ----- a late submission -----

  /** A submission changes no quest, the late one included, and is never refused as expired. */
  lemma SubmissionNeverExpires(s: State, auth: set<Address>, q: Symbol, u: Address, proof: Hash)
    ensures var tx := Tx(auth, OnQuest(Submit(q, u, proof)));
      && Next(s, tx).quests == s.quests && Check(s, tx) != Fail(QuestExpired)
      && (Check(s, tx).Pass? ==> s.quests[q].status.Active? && s.now <= s.quests[q].deadline)
  {
  }

  // ----- the level -----

  /** The level announced in the comment above calculate_level, with `root` the integer root of a hundredth. */
  predicate IsRoot(root: int, n: int) {
    0 <= root && root * root <= n < (root + 1) * (root + 1)
  }

  /** The level is the announced one exactly below 200 experience, that is, up to one approved submission. */
  lemma LevelIsRootIff(xp: u32, root: int)
    requires IsRoot(root, xp / 100)
    ensures LevelOf(xp) == root + 1 <==> xp < 200
  {
    if root >= 2 {
      assert root * root >= 2 * root;
    } else if root == 1 {
      assert (root + 1) * (root + 1) == 4;
    }
  }
}
