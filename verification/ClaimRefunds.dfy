/** Whether all creators can get back what is left: the escrows of an asset refunded one after another. */
module ClaimRefunds {
  import opened Prelude
  import opened Sums
  import opened Tokens
  import opened ClaimTypes
  import opened ClaimSpec
  import opened ClaimInvariant
  import opened ClaimLedger

  /** The creator's own cancellation. */
  function CancelOf(s: State, q: Symbol): Tx
    requires q in s.quests
  {
    Tx({s.quests[q].creator}, OnEscrow(Cancel(q, s.quests[q].creator)))
  }

  /** The cancellations of the quests, one after the other, are all accepted. */
  ghost predicate AllRefunded(s: State, qs: seq<Symbol>)
    decreases |qs|
  {
    qs == [] ||
    (qs[0] in s.quests && Check(s, CancelOf(s, qs[0])).Pass? && AllRefunded(Next(s, CancelOf(s, qs[0])), qs[1..]))
  }

  function Total(escrows: map<Symbol, EscrowInfo>, qs: seq<Symbol>): int
    requires forall q :: q in qs ==> q in escrows
  {
    if qs == [] then 0 else Available(escrows[qs[0]]) + Total(escrows, qs[1..])
  }

  /** Distinct quests, each with an open escrow in the asset. */
  ghost predicate OpenEscrows(escrows: map<Symbol, EscrowInfo>, asset: Address, qs: seq<Symbol>) {
    && (forall i, j :: 0 <= i < j < |qs| ==> qs[i] != qs[j])
    && (forall q :: q in qs ==> q in escrows && escrows[q].active && escrows[q].token == asset)
  }

  /** Nobody's balance is so large that a refund would pass the token's limit. */
  ghost predicate RoomFor(tokens: Ledger, asset: Address, amount: int) {
    forall a: Address :: a.Account? ==> Balance(tokens, asset, a) + amount <= I128_MAX
  }

  lemma {:induction false} TotalKept(escrows: map<Symbol, EscrowInfo>, escrows': map<Symbol, EscrowInfo>,
      qs: seq<Symbol>)
    requires forall q :: q in qs ==> q in escrows && q in escrows' && escrows'[q] == escrows[q]
    ensures Total(escrows', qs) == Total(escrows, qs)
  {
    if qs == [] {
    } else {
      TotalKept(escrows, escrows', qs[1..]);
    }
  }

  lemma {:induction false} TotalNotNegative(escrows: map<Symbol, EscrowInfo>, qs: seq<Symbol>)
    requires forall q :: q in qs ==> q in escrows && 0 <= Available(escrows[q])
    ensures 0 <= Total(escrows, qs)
  {
    if qs == [] {
    } else {
      TotalNotNegative(escrows, qs[1..]);
    }
  }

  /** One cancellation: when it passes, and what it leaves for the others. */
  lemma CancelStep(s: State, q: Symbol)
    requires Inv(s) && !s.guard.paused && q in s.escrows && s.escrows[q].active
    requires Balance(s.tokens, s.escrows[q].token, s.escrows[q].depositor) + Available(s.escrows[q]) <= I128_MAX
    ensures q in s.quests && 0 <= Available(s.escrows[q])
    ensures var e := s.escrows[q];
      Check(s, CancelOf(s, q)).Pass? <==> Available(e) <= Balance(s.tokens, e.token, Contract)
  {
    assert EscrowOk(s.quests[q], s.escrows[q]) && QuestOk(q, s.quests[q]);
    EscrowBounds(s.quests[q], s.escrows[q]);
  }

  lemma AfterCancel(s: State, q: Symbol)
    requires Inv(s) && q in s.escrows && q in s.quests && Check(s, CancelOf(s, q)).Pass? && 0 <= Available(s.escrows[q])
    ensures var e, s' := s.escrows[q], Next(s, CancelOf(s, q));
      && s'.guard == s.guard && s'.escrows == s.escrows[q := Closed(e)]
      && s'.tokens == RefundTokens(s, q)
  {
  }

  lemma RefundMoves(s: State, q: Symbol, asset: Address, rest: int)
    requires q in s.escrows && RefundCheck(s, q).Pass? && s.escrows[q].token == asset && s.escrows[q].depositor.Account?
    requires 0 <= Available(s.escrows[q]) && RoomFor(s.tokens, asset, Available(s.escrows[q]) + rest)
    ensures Balance(RefundTokens(s, q), asset, Contract) == Balance(s.tokens, asset, Contract) - Available(s.escrows[q])
    ensures RoomFor(RefundTokens(s, q), asset, rest)
  {
  }

  lemma {:induction false} AvailableOf(s: State, qs: seq<Symbol>)
    requires Inv(s) && forall q :: q in qs ==> q in s.escrows
    ensures forall q :: q in qs ==> 0 <= Available(s.escrows[q])
  {
    forall q | q in qs ensures 0 <= Available(s.escrows[q]) { assert EscrowOk(s.quests[q], s.escrows[q]); }
  }

  /** What the others need is still there after the first refund. */
  lemma {:induction false} RestReady(s: State, s': State, asset: Address, q: Symbol, rest: seq<Symbol>)
    requires OpenEscrows(s.escrows, asset, [q] + rest) && q in s.escrows && 0 <= Available(s.escrows[q])
    requires s.escrows[q].token == asset && s.escrows[q].depositor.Account? && RefundCheck(s, q).Pass?
    requires forall p :: p in rest ==> p in s.escrows
    requires RoomFor(s.tokens, asset, Available(s.escrows[q]) + Total(s.escrows, rest))
    requires s'.escrows == s.escrows[q := Closed(s.escrows[q])] && s'.tokens == RefundTokens(s, q)
    ensures OpenEscrows(s'.escrows, asset, rest) && Total(s'.escrows, rest) == Total(s.escrows, rest)
    ensures RoomFor(s'.tokens, asset, Total(s'.escrows, rest))
    ensures Balance(s'.tokens, asset, Contract) == Balance(s.tokens, asset, Contract) - Available(s.escrows[q])
  {
    RefundMoves(s, q, asset, Total(s.escrows, rest));
    RestOpen(s.escrows, asset, q, rest);
    TotalKept(s.escrows, s'.escrows, rest);
  }

  /** An accepted cancellation is a refund, and keeps the invariant. */
  lemma CancelKeeps(s: State, q: Symbol)
    requires Inv(s) && q in s.quests && Check(s, CancelOf(s, q)).Pass?
    ensures Inv(Next(s, CancelOf(s, q))) && RefundCheck(s, q).Pass? && s.quests[q].creator.Account?
  {
    InvStep(s, CancelOf(s, q));
  }

  lemma {:induction false} EscrowFacts(s: State, asset: Address, qs: seq<Symbol>)
    requires Inv(s) && OpenEscrows(s.escrows, asset, qs) && qs != []
    ensures var q, rest := qs[0], qs[1..];
      && q in s.quests && q in s.escrows && s.escrows[q].active && s.escrows[q].token == asset
      && s.escrows[q].depositor == s.quests[q].creator && s.quests[q].creator.Account? && 0 <= Available(s.escrows[q])
      && (forall p :: p in rest ==> p in s.escrows) && 0 <= Total(s.escrows, rest)
  {
    assert qs[0] in qs && EscrowOk(s.quests[qs[0]], s.escrows[qs[0]]) && QuestOk(qs[0], s.quests[qs[0]]);
    AvailableOf(s, qs);
    TotalNotNegative(s.escrows, qs[1..]);
  }

  /** Refunding open escrows one after another works exactly when the contract holds their total. */
  lemma {:induction false} AllRefundedIff(s: State, asset: Address, qs: seq<Symbol>)
    requires Inv(s) && !s.guard.paused && OpenEscrows(s.escrows, asset, qs)
    requires RoomFor(s.tokens, asset, Total(s.escrows, qs))
    ensures AllRefunded(s, qs) <==> Total(s.escrows, qs) <= Balance(s.tokens, asset, Contract)
    decreases |qs|
  {
    if qs == [] {
    } else {
      var q, rest := qs[0], qs[1..];
      EscrowFacts(s, asset, qs);
      CancelStep(s, q);
      if Check(s, CancelOf(s, q)).Pass? {
        assert qs == [q] + rest;
        CancelKeeps(s, q);
        AfterCancel(s, q);
        RestReady(s, Next(s, CancelOf(s, q)), asset, q, rest);
        AllRefundedIff(Next(s, CancelOf(s, q)), asset, rest);
      }
    }
  }

  lemma {:induction false} RestOpen(escrows: map<Symbol, EscrowInfo>, asset: Address, q: Symbol, rest: seq<Symbol>)
    requires OpenEscrows(escrows, asset, [q] + rest)
    ensures q in escrows && q !in rest && OpenEscrows(escrows[q := Closed(escrows[q])], asset, rest)
  {
    var all := [q] + rest;
    assert all[0] == q && forall i :: 0 <= i < |rest| ==> rest[i] == all[i + 1];
    assert forall p :: p in rest ==> p in all;
  }

  // ----- all open escrows of an asset -----

  lemma {:induction false} TotalIsSum(m: map<Symbol, int>, escrows: map<Symbol, EscrowInfo>, qs: seq<Symbol>)
    requires forall i, j :: 0 <= i < j < |qs| ==> qs[i] != qs[j]
    requires forall q :: q in qs ==> q in escrows && q in m && m[q] == Available(escrows[q])
    requires forall q :: q in m && q !in qs ==> m[q] == 0
    ensures Sum(m) == Total(escrows, qs)
    decreases |qs|
  {
    if qs == [] {
      SumOfZeros(m);
    } else {
      SumRemove(m, qs[0]);
      assert forall i :: 0 <= i < |qs[1..]| ==> qs[1..][i] == qs[i + 1];
      TotalIsSum(m - {qs[0]}, escrows, qs[1..]);
    }
  }

  lemma {:induction false} SumOfZeros(m: map<Symbol, int>)
    requires forall q :: q in m ==> m[q] == 0
    ensures Sum(m) == 0
    decreases m
  {
    if m == map[] {
    } else {
      var q :| q in m;
      SumRemove(m, q);
      SumOfZeros(m - {q});
    }
  }

  /**
   In a reachable state that is not paused, and up to the token's own limit on balances, the
   creators can cancel and be refunded out of all open escrows of an asset, in any order,
   exactly when the asset is covered.
   */
  lemma {:induction false} CoveredIffAllRefundable(txs: seq<Tx>, asset: Address, qs: seq<Symbol>)
    requires var s := Run(GENESIS, txs);
      && !s.guard.paused && OpenEscrows(s.escrows, asset, qs)
      && (forall q :: q in s.escrows && s.escrows[q].active && s.escrows[q].token == asset ==> q in qs)
      && RoomFor(s.tokens, asset, Sum(Held(s.escrows, asset)))
    ensures AllRefunded(Run(GENESIS, txs), qs) <==> Covered(txs, asset)
  {
    var s := Run(GENESIS, txs);
    InvGenesis();
    InvRun(GENESIS, txs);
    forall q | q in Held(s.escrows, asset) && q !in qs ensures Held(s.escrows, asset)[q] == 0 {
      assert EscrowOk(s.quests[q], s.escrows[q]);
    }
    TotalIsSum(Held(s.escrows, asset), s.escrows, qs);
    AllRefundedIff(s, asset, qs);
    CoveredIff(txs, asset);
  }
}
