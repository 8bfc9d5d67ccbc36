/** The two ways out of an escrow: the plain withdrawal, and the emergency one with its grace window. */
module InstantExit {
  import opened Prelude
  import opened Tokens
  import opened InstantTypes
  import opened InstantSpec
  import opened InstantInvariant
  import opened InstantRuns

  function Plain(auth: set<Address>, q: Symbol, creator: Address): Tx {
    Tx(auth, OnEscrow(Withdraw(q, creator)))
  }

  function Emergency(auth: set<Address>, q: Symbol, creator: Address): Tx {
    Tx(auth, OnEscrow(EmergencyWithdraw(q, creator)))
  }

  /** What the creator needs to get an escrow back. */
  predicate MayWithdraw(s: State, auth: set<Address>, q: Symbol, creator: Address) {
    && Signed(auth, creator) && q in s.quests && s.quests[q].creator == creator && Terminal(s.quests[q].status)
    && 0 < EscrowOf(s, q) && Balance(s.tokens, s.quests[q].asset, creator) + EscrowOf(s, q) <= I128_MAX
  }

  /**
   The window in terms of the clock: open unless the pause was never configured, or is marked
   and either its start cannot be computed or it has begun and the grace period is over.
   */
  predicate WindowOpen(s: State) {
    s.pause.Some? &&
    var p := s.pause.value;
    p.isPaused ==>
      && p.pauseTimestamp + p.timelockDelay <= U64_MAX
      && (p.pauseTimestamp + p.timelockDelay <= s.now ==> s.now < p.lastPauseTime + p.gracePeriod <= U64_MAX)
  }

  lemma WithdrawPassIff(s: State, auth: set<Address>, q: Symbol, creator: Address)
    requires Inv(s)
    ensures Check(s, Plain(auth, q, creator)).Pass? <==> MayWithdraw(s, auth, q, creator)
    ensures Check(s, Emergency(auth, q, creator)).Pass? <==> MayWithdraw(s, auth, q, creator) && WindowOpen(s)
  {
    if q in s.quests { EscrowIsBacked(s, q); }
  }

  /**
   In every reachable state the plain withdrawal succeeds on these conditions alone: no pause
   is among them, nor a lack of tokens.
   */
  lemma {:induction false} WithdrawSucceedsIff(txs: seq<Tx>, auth: set<Address>, q: Symbol, creator: Address)
    ensures var s := Run(GENESIS, txs);
      Check(s, Plain(auth, q, creator)).Pass? <==> MayWithdraw(s, auth, q, creator)
  {
    InvGenesis();
    InvRun(GENESIS, txs);
    WithdrawPassIff(Run(GENESIS, txs), auth, q, creator);
  }

  /** The two calls leave different states exactly when the plain one succeeds while the window is closed. */
  lemma {:induction false} ExitsDifferIff(txs: seq<Tx>, auth: set<Address>, q: Symbol, creator: Address)
    ensures var s := Run(GENESIS, txs);
      Next(s, Plain(auth, q, creator)) != Next(s, Emergency(auth, q, creator))
      <==> MayWithdraw(s, auth, q, creator) && !WindowOpen(s)
  {
    var s := Run(GENESIS, txs);
    InvGenesis();
    InvRun(GENESIS, txs);
    WithdrawPassIff(s, auth, q, creator);
    if Check(s, Plain(auth, q, creator)).Pass? {
      assert EscrowOf(Next(s, Plain(auth, q, creator)), q) == 0;
    }
  }

  // ----- nothing done to the pause stops a withdrawal -----

  lemma WithdrawIgnoresControl(s: State, s': State, auth: set<Address>, q: Symbol, creator: Address)
    requires s' == s.(admin := s'.admin, pause := s'.pause)
    ensures Check(s', Plain(auth, q, creator)) == Check(s, Plain(auth, q, creator))
    ensures Next(s', Plain(auth, q, creator)) == Next(s, Plain(auth, q, creator)).(admin := s'.admin, pause := s'.pause)
  {
  }

  lemma {:induction false} ControlsKeepRest(s: State, controls: seq<Tx>)
    requires forall tx :: tx in controls ==> tx.call.Control?
    ensures Run(s, controls) == s.(admin := Run(s, controls).admin, pause := Run(s, controls).pause)
  {
    if controls == [] {
    } else {
      var init, tx := controls[..|controls| - 1], controls[|controls| - 1];
      assert forall t :: t in init ==> t in controls;
      assert tx in controls;
      ControlsKeepRest(s, init);
    }
  }

  /**
   However the pause is configured, requested, cancelled, lifted or reconfigured in between, a
   plain withdrawal gets the answer it would have got before, and moves the same money.
   */
  lemma {:induction false} PauseNeverStopsWithdrawal(s: State, controls: seq<Tx>, auth: set<Address>, q: Symbol,
      creator: Address)
    requires forall tx :: tx in controls ==> tx.call.Control?
    ensures var s' := Run(s, controls);
      && Check(s', Plain(auth, q, creator)) == Check(s, Plain(auth, q, creator))
      && Next(s', Plain(auth, q, creator)).tokens == Next(s, Plain(auth, q, creator)).tokens
      && Next(s', Plain(auth, q, creator)).escrow == Next(s, Plain(auth, q, creator)).escrow
  {
    ControlsKeepRest(s, controls);
    WithdrawIgnoresControl(s, Run(s, controls), auth, q, creator);
  }

  // ----- a closed window with a way out -----

  const CREATOR := Account(1)
  const VERIFIER := Account(2)
  const ASSET := Account(3)
  const ALL: set<Address> := {CREATOR, VERIFIER}

  lemma {:induction false} Then(txs: seq<Tx>, tx: Tx)
    ensures Run(GENESIS, txs + [tx]) == Next(Run(GENESIS, txs), tx)
  {
    assert (txs + [tx])[..|txs|] == txs;
  }

  const ISSUE := Tx(ALL, Outside(Issue(ASSET, CREATOR, 10)))
  const OPEN := Tx(ALL, OnQuest(Register("q", CREATOR, ASSET, 10, VERIFIER, 100, 1)))
  const FUND := Tx(ALL, OnEscrow(Deposit("q", CREATOR, 10)))
  const CALL_OFF := Tx(ALL, OnQuest(Cancel("q", CREATOR)))
  const SET_UP := Tx(ALL, Control(Initialize(CREATOR)))
  const NO_GRACE := Tx(ALL, Control(InitializePause(CREATOR, 0, 1, 0)))
  const PAUSE := Tx(ALL, Control(RequestPause(CREATOR, None)))

  lemma {:induction false} CancelledWithEscrow() returns (txs: seq<Tx>)
    ensures var s := Run(GENESIS, txs);
      && s.now == 0 && s.admin.None? && s.pause.None? && EscrowOf(s, "q") == 10
      && "q" in s.quests && s.quests["q"].creator == CREATOR && s.quests["q"].asset == ASSET
      && Terminal(s.quests["q"].status) && Balance(s.tokens, ASSET, CREATOR) == 0
  {
    Then([], ISSUE);
    txs := [] + [ISSUE];
    assert Run(GENESIS, []) == GENESIS && Balance(Run(GENESIS, txs).tokens, ASSET, CREATOR) == 10;
    Then(txs, OPEN);
    txs := txs + [OPEN];
    assert Run(GENESIS, txs).quests.Keys == {"q"} && Run(GENESIS, txs).escrow == map[];
    Then(txs, FUND);
    txs := txs + [FUND];
    assert EscrowOf(Run(GENESIS, txs), "q") == 10;
    Then(txs, CALL_OFF);
    txs := txs + [CALL_OFF];
  }

  lemma PausedWithoutGrace(s: State)
    requires s.now == 0 && s.admin.None?
    ensures var s' := Next(Next(Next(s, SET_UP), NO_GRACE), PAUSE);
      s' == s.(admin := s'.admin, pause := s'.pause) && WindowCheck(s') == Fail(EmergencyWindowClosed)
  {
    var s1 := Next(s, SET_UP);
    assert s1 == s.(admin := Some(CREATOR));
    var s2 := Next(s1, NO_GRACE);
    assert s2 == s1.(pause := Some(PauseState(false, 0, 0, [], 1, 0, 0, None)));
  }

  /** A run that closes the emergency window while the creator can still take everything out the plain way. */
  lemma {:induction false} ClosedWindowStopsNobody() returns (txs: seq<Tx>)
    ensures var s := Run(GENESIS, txs);
      && WindowCheck(s) == Fail(EmergencyWindowClosed)
      && Check(s, Emergency(ALL, "q", CREATOR)) == Fail(EmergencyWindowClosed)
      && Check(s, Plain(ALL, "q", CREATOR)) == Pass && EscrowOf(s, "q") == 10
      && Balance(Next(s, Plain(ALL, "q", CREATOR)).tokens, ASSET, CREATOR) == 10
  {
    txs := CancelledWithEscrow();
    PausedWithoutGrace(Run(GENESIS, txs));
    Then(txs, SET_UP);
    txs := txs + [SET_UP];
    Then(txs, NO_GRACE);
    txs := txs + [NO_GRACE];
    Then(txs, PAUSE);
    txs := txs + [PAUSE];
    WithdrawSucceedsIff(txs, ALL, "q", CREATOR);
  }
}
