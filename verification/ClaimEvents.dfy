/** The event log of the contract with a claim step can be replayed into its escrow records. */
module ClaimEvents {
  import opened Prelude
  import opened ClaimTypes
  import opened ClaimSpec
  import opened ClaimInvariant
  import ClaimLedger

  datatype Totals = Totals(deposited: int, paidOut: int, refunded: int)

  function Net(t: Totals): int {
    t.deposited - t.paidOut - t.refunded
  }

  /** How an indexer adds one event to its sums for a quest. */
  function Tally(t: Totals, event: Event, q: Symbol): Totals {
    match event
    case EscrowDeposited(p, _, amount, _) => if p == q then t.(deposited := t.deposited + amount) else t
    case EscrowPayout(p, _, amount, _) => if p == q then t.(paidOut := t.paidOut + amount) else t
    case EscrowRefunded(p, _, amount) => if p == q then t.(refunded := t.refunded + amount) else t
    case _ => t
  }

  function Replay(log: seq<Event>, q: Symbol): Totals {
    if log == [] then Totals(0, 0, 0) else Tally(Replay(log[..|log| - 1], q), log[|log| - 1], q)
  }

  predicate Booking(event: Event) {
    event.EscrowDeposited? || event.EscrowPayout? || event.EscrowRefunded?
  }

  /** The balance an event carries is what the replay up to and including it gives. */
  predicate BalanceAt(log: seq<Event>, i: nat)
    requires i < |log|
  {
    log[i].EscrowDeposited? || log[i].EscrowPayout? ==>
      log[i].balance == Net(Replay(log[..i + 1], log[i].quest))
  }

  predicate BalancesOk(log: seq<Event>) {
    forall i :: 0 <= i < |log| ==> BalanceAt(log, i)
  }

  function Recorded(escrows: map<Symbol, EscrowInfo>, q: Symbol): Totals {
    if q in escrows then Totals(escrows[q].deposited, escrows[q].paidOut, escrows[q].refunded) else Totals(0, 0, 0)
  }

  ghost predicate ReplayOk(log: seq<Event>, escrows: map<Symbol, EscrowInfo>) {
    forall q :: Replay(log, q) == Recorded(escrows, q)
  }

  ghost predicate LogOk(s: State) {
    BalancesOk(s.log) && ReplayOk(s.log, s.escrows)
  }

  // ----- appending events -----

  lemma {:induction false} ReplayOne(log: seq<Event>, event: Event, q: Symbol)
    ensures Replay(log + [event], q) == Tally(Replay(log, q), event, q)
  {
    assert (log + [event])[..|log|] == log;
  }

  lemma {:induction false} BalancesOne(log: seq<Event>, event: Event)
    requires BalancesOk(log)
    requires event.EscrowDeposited? || event.EscrowPayout? ==>
      event.balance == Net(Tally(Replay(log, event.quest), event, event.quest))
    ensures BalancesOk(log + [event])
  {
    var more := log + [event];
    forall i | 0 <= i < |more| ensures BalanceAt(more, i) {
      if i < |log| {
        assert BalanceAt(log, i);
        assert more[..i + 1] == log[..i + 1];
      } else {
        assert more[..i + 1] == more;
        if Booking(event) { ReplayOne(log, event, event.quest); }
      }
    }
  }

  /** Events that book nothing change neither the replay nor the balances. */
  lemma {:induction false} AppendQuiet(log: seq<Event>, quiet: seq<Event>, escrows: map<Symbol, EscrowInfo>)
    requires BalancesOk(log) && ReplayOk(log, escrows)
    requires forall event :: event in quiet ==> !Booking(event)
    ensures BalancesOk(log + quiet) && ReplayOk(log + quiet, escrows)
    decreases |quiet|
  {
    if quiet == [] {
      assert log + quiet == log;
    } else {
      var init, last := quiet[..|quiet| - 1], quiet[|quiet| - 1];
      assert last in quiet && !Booking(last);
      assert forall event :: event in init ==> event in quiet;
      AppendQuiet(log, init, escrows);
      BalancesOne(log + init, last);
      forall q { ReplayOne(log + init, last, q); }
      assert log + init + [last] == log + quiet;
    }
  }

  /** One booking event, followed by quiet ones, for the escrow record it belongs to. */
  lemma {:induction false} AppendBooking(log: seq<Event>, event: Event, quiet: seq<Event>, escrows: map<Symbol,
      EscrowInfo>, e: EscrowInfo)
    requires BalancesOk(log) && ReplayOk(log, escrows) && Booking(event)
    requires Tally(Recorded(escrows, event.quest), event, event.quest) == Totals(e.deposited, e.paidOut, e.refunded)
    requires event.EscrowDeposited? || event.EscrowPayout? ==> event.balance == Available(e)
    requires forall x :: x in quiet ==> !Booking(x)
    ensures BalancesOk(log + ([event] + quiet)) && ReplayOk(log + ([event] + quiet), escrows[event.quest := e])
  {
    BalancesOne(log, event);
    forall q ensures Replay(log + [event], q) == Recorded(escrows[event.quest := e], q) {
      ReplayOne(log, event, q);
    }
    AppendQuiet(log + [event], quiet, escrows[event.quest := e]);
    assert log + [event] + quiet == log + ([event] + quiet);
  }

  // ----- every transaction -----

  lemma LogClaim(s: State, auth: set<Address>, q: Symbol, u: Address)
    requires LogOk(s) && ClaimCheck(s, auth, q, u).Pass?
    ensures var log := s.log + ClaimEvents(s, auth, q, u);
      BalancesOk(log) && ReplayOk(log, ClaimEffect(s, auth, q, u).escrows)
  {
    var events := ClaimEvents(s, auth, q, u);
    if q in s.escrows {
      assert events == [events[0]] + events[1..];
      AppendBooking(s.log, events[0], events[1..], s.escrows, PaidFromEscrow(s.escrows[q], s.quests[q].reward));
    } else {
      AppendQuiet(s.log, events, s.escrows);
    }
  }

  lemma LogQuestStep(s: State, auth: set<Address>, op: QuestOp)
    requires LogOk(s) && QuestCheck(s, auth, op).Pass?
    ensures var log := s.log + QuestEvents(s, auth, op);
      BalancesOk(log) && ReplayOk(log, QuestEffect(s, auth, op).escrows)
  {
    if op.Claim? {
      LogClaim(s, auth, op.quest, op.submitter);
    } else {
      ClaimLedger.OtherQuestOpsKeepMoney(s, auth, op);
      AppendQuiet(s.log, QuestEvents(s, auth, op), s.escrows);
    }
  }

  lemma LogDeposit(s: State, auth: set<Address>, op: EscrowOp)
    requires LogOk(s) && op.Deposit? && DepositCheck(s, auth, op).Pass?
    ensures var log := s.log + EscrowEvents(s, auth, op);
      BalancesOk(log) && ReplayOk(log, EscrowEffect(s, auth, op).escrows)
  {
    var events := EscrowEvents(s, auth, op);
    assert events == [events[0]] + [];
    AppendBooking(s.log, events[0], [], s.escrows, ToppedUp(EscrowFor(s, op), op.amount));
  }

  /** A refund of nothing is not logged, and changes no total. */
  lemma {:induction false} LogRefund(s: State, q: Symbol, quiet: seq<Event>, escrows: map<Symbol, EscrowInfo>)
    requires LogOk(s) && (q in s.escrows ==> 0 <= Available(s.escrows[q]))
    requires escrows == if q in s.escrows then s.escrows[q := Closed(s.escrows[q])] else s.escrows
    requires forall event :: event in quiet ==> !Booking(event)
    ensures var log := s.log + (RefundEvents(s, q) + quiet);
      BalancesOk(log) && ReplayOk(log, escrows)
  {
    if RefundAmount(s, q) > 0 {
      AppendBooking(s.log, RefundEvents(s, q)[0], quiet, s.escrows, Closed(s.escrows[q]));
    } else {
      assert RefundEvents(s, q) + quiet == quiet;
      AppendQuiet(s.log, quiet, escrows);
    }
  }

  lemma LogEscrowStep(s: State, auth: set<Address>, op: EscrowOp)
    requires Inv(s) && LogOk(s) && EscrowCheck(s, auth, op).Pass?
    ensures var log := s.log + EscrowEvents(s, auth, op);
      BalancesOk(log) && ReplayOk(log, EscrowEffect(s, auth, op).escrows)
  {
    if op.Deposit? {
      LogDeposit(s, auth, op);
    } else {
      var quiet := if op.Cancel? then [QuestCancelled(op.quest, op.creator, RefundAmount(s, op.quest))] else [];
      assert EscrowEvents(s, auth, op) == RefundEvents(s, op.quest) + quiet;
      LogRefund(s, op.quest, quiet, EscrowEffect(s, auth, op).escrows);
    }
  }

  lemma LogQuestNext(s: State, auth: set<Address>, op: QuestOp)
    requires LogOk(s)
    ensures LogOk(Next(s, Tx(auth, OnQuest(op))))
  {
    if QuestCheck(s, auth, op).Pass? { LogQuestStep(s, auth, op); }
  }

  lemma LogEscrowNext(s: State, auth: set<Address>, op: EscrowOp)
    requires Inv(s) && LogOk(s)
    ensures LogOk(Next(s, Tx(auth, OnEscrow(op))))
  {
    if EscrowCheck(s, auth, op).Pass? { LogEscrowStep(s, auth, op); }
  }

  lemma {:induction false} LogQuiet(s: State, s': State, quiet: seq<Event>)
    requires LogOk(s) && s'.escrows == s.escrows && s'.log == s.log + quiet
    requires forall event :: event in quiet ==> !Booking(event)
    ensures LogOk(s')
  {
    AppendQuiet(s.log, quiet, s.escrows);
  }

  /** Neither the guard's operations nor the outside world touch escrows or log bookings. */
  lemma {:induction false} OthersLogQuietly(s: State, tx: Tx) returns (quiet: seq<Event>)
    requires tx.call.OnGuard? || tx.call.Outside?
    ensures Next(s, tx).escrows == s.escrows && Next(s, tx).log == s.log + quiet
    ensures forall event :: event in quiet ==> !Booking(event)
  {
    quiet := if Check(s, tx).Pass? then Events(s, tx) else [];
    if Check(s, tx).Pass? {
      match tx.call
      case OnGuard(op) => GuardKeeps(s, tx.auth, op);
      case Outside(event) => OutsideKeeps(s, tx.auth, event);
    }
  }

  lemma LogStep(s: State, tx: Tx)
    requires Inv(s) && LogOk(s)
    ensures LogOk(Next(s, tx))
  {
    match tx.call
    case OnQuest(op) => LogQuestNext(s, tx.auth, op);
    case OnEscrow(op) => LogEscrowNext(s, tx.auth, op);
    case _ =>
      var quiet := OthersLogQuietly(s, tx);
      LogQuiet(s, Next(s, tx), quiet);
  }

  /**
   After any run, summing the deposit, payout and refund events of a quest gives the totals
   stored in its escrow record, and every balance in the log is the net sum up to its event.
   */
  lemma {:induction false} EventsReplayEscrows(txs: seq<Tx>)
    ensures BalancesOk(Run(GENESIS, txs).log)
    ensures forall q :: Replay(Run(GENESIS, txs).log, q) == Recorded(Run(GENESIS, txs).escrows, q)
  {
    InvGenesis();
    if txs == [] {
    } else {
      EventsReplayEscrows(txs[..|txs| - 1]);
      InvRun(GENESIS, txs[..|txs| - 1]);
      LogStep(Run(GENESIS, txs[..|txs| - 1]), txs[|txs| - 1]);
    }
  }
}
