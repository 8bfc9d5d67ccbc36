/** When the approvals that lift an emergency pause were all given during it, and by whom. */
module ClaimQuorum {
  import opened Prelude
  import opened ClaimTypes
  import opened ClaimSpec
  import opened ClaimPause

  lemma {:induction false} NoLiftWhilePaused(txs: seq<Tx>, k: nat, j: nat)
    requires k <= j < |txs| && PausedSince(txs, k)
    ensures !Lifts(Run(GENESIS, txs[..j]), txs[j])
  {
    assert Run(GENESIS, txs[..j + 1]).guard.paused;
    assert txs[..j + 1][..j] == txs[..j];
    GuardStep(Run(GENESIS, txs[..j]), txs[j]);
  }

  lemma {:induction false} PausedPrefix(txs: seq<Tx>, k: nat, i: nat)
    requires k <= i <= |txs| && PausedSince(txs, k)
    ensures PausedSince(txs[..i], k) && PausedSince(txs, i)
  {
    forall j | k <= j <= i ensures Run(GENESIS, txs[..i][..j]).guard.paused { assert txs[..i][..j] == txs[..j]; }
  }

  /** The converse of ApproversApproved: an approval not followed by an unpause makes an approver. */
  lemma {:induction false} ApprovedIsApprover(txs: seq<Tx>, a: Address, i: nat)
    requires ApprovedAt(txs, a, i)
    ensures a in Approvers(txs)
  {
    var before, tx := txs[..|txs| - 1], txs[|txs| - 1];
    if i < |before| {
      assert before[..i] == txs[..i];
      forall j | i < j < |before| ensures !Lifts(Run(GENESIS, before[..j]), before[j]) {
        assert before[..j] == txs[..j];
      }
      ApprovedIsApprover(before, a, i);
      assert !Lifts(Run(GENESIS, txs[..|before|]), tx);
    }
  }

  /** While the pause stands approvers are only added. */
  lemma {:induction false} ApproversGrow(txs: seq<Tx>, k: nat)
    requires k <= |txs| && PausedSince(txs, k)
    ensures Approvers(txs[..k]) <= Approvers(txs)
  {
    if k == |txs| {
      assert txs[..k] == txs;
    } else {
      var before := txs[..|txs| - 1];
      PausedPrefix(txs, k, |before|);
      ApproversGrow(before, k);
      assert before[..k] == txs[..k];
      NoLiftWhilePaused(txs, k, |before|);
    }
  }

  /** Nobody approves twice between two unpauses. */
  lemma {:induction false} ApprovesOnce(txs: seq<Tx>, a: Address, i: nat)
    requires ApprovedAt(txs, a, i)
    ensures a !in Approvers(txs[..i])
  {
    CounterCountsApprovers(txs[..i]);
  }

  /** An approver is from before the pause, or signed at a step of it; never both. */
  lemma {:induction false} ApproverBeforeOrDuring(txs: seq<Tx>, k: nat, a: Address)
    requires k <= |txs| && PausedSince(txs, k) && a in Approvers(txs)
    ensures a in Approvers(txs[..k]) <==> !exists i :: k <= i && ApprovedAt(txs, a, i)
  {
    if a in Approvers(txs[..k]) {
      forall i | k <= i ensures !ApprovedAt(txs, a, i) {
        if ApprovedAt(txs, a, i) {
          PausedPrefix(txs, k, i);
          ApproversGrow(txs[..i], k);
          assert txs[..i][..k] == txs[..k];
          ApprovesOnce(txs, a, i);
        }
      }
    } else {
      var i := ApproversApproved(txs, a);
      if i < k {
        assert txs[..k][..i] == txs[..i];
        forall j | i < j < k ensures !Lifts(Run(GENESIS, txs[..k][..j]), txs[..k][j]) {
          assert txs[..k][..j] == txs[..j];
        }
        ApprovedIsApprover(txs[..k], a, i);
      }
    }
  }

  /**
   While a pause stands, everybody counted for lifting it has signed during it exactly when
   the approval counter was zero as it began: a stored number that can be read before pausing.
   */
  lemma {:induction false} QuorumGivenDuringPauseIff(txs: seq<Tx>, k: nat)
    requires k <= |txs| && PausedSince(txs, k)
    ensures (forall a :: a in Approvers(txs) ==> exists i :: k <= i && ApprovedAt(txs, a, i))
      <==> Run(GENESIS, txs[..k]).guard.approvalCount == 0
  {
    CounterCountsApprovers(txs[..k]);
    forall a | a in Approvers(txs)
      ensures a in Approvers(txs[..k]) <==> !exists i :: k <= i && ApprovedAt(txs, a, i) {
      ApproverBeforeOrDuring(txs, k, a);
    }
    ApproversGrow(txs, k);
    if Approvers(txs[..k]) != {} {
      var a :| a in Approvers(txs[..k]);
      assert a in Approvers(txs);
    }
  }

  /** Everybody counted for lifting it is still an admin exactly when all counted as it began are admins then. */
  lemma {:induction false} ApproversStillAdminsIff(txs: seq<Tx>, k: nat)
    requires k <= |txs| && PausedSince(txs, k)
    ensures Approvers(txs) <= Run(GENESIS, txs).admins <==> Approvers(txs[..k]) <= Run(GENESIS, txs[..k]).admins
  {
    PauseFreezes(txs, k);
    ApproversGrow(txs, k);
    forall a | a in Approvers(txs) && a !in Approvers(txs[..k]) ensures a in Run(GENESIS, txs).admins {
      ApproverBeforeOrDuring(txs, k, a);
      var i :| k <= i && ApprovedAt(txs, a, i);
      PausedPrefix(txs, k, i);
      SignersDuringPauseStayAdmins(txs, a, i);
    }
  }
}
