/** A reversal that crashed can be finished at any later time, whatever happened to the books in between. */
module Retries {
  import opened Wrappers
  import opened Ledger
  import opened Subledger
  import opened Books
  import opened Reconciliation
  import opened Runs
  import opened Flights
  import opened Guarantees

  /** The posting of this source is stored and so is its reversal. */
  predicate PostingReversed(txs: seq<Transaction>, source: Source) {
    Find(txs, source).Some? && HasReversal(txs, Find(txs, source).value)
  }

  predicate AppendsAtMostOne(txs: seq<Transaction>, after: seq<Transaction>) {
    txs == after || (|after| == |txs| + 1 && after[..|txs|] == txs)
  }

  /** Rows are never dropped; a repayment stays with its loan and a fee payment with its fee. */
  ghost predicate RowsStay(b: Books, after: Books) {
    && |b.loans| <= |after.loans| && |b.payouts| <= |after.payouts| && |b.contributions| <= |after.contributions|
    && |b.repayments| <= |after.repayments| && |b.feePayments| <= |after.feePayments|
    && (forall r :: 0 <= r < |b.repayments| ==> after.repayments[r].loan == b.repayments[r].loan)
    && (forall p :: 0 <= p < |b.feePayments| ==> after.feePayments[p].fee == b.feePayments[p].fee)
  }

  lemma OperationAppends(b: Books, op: Op)
    requires Usable(b)
    ensures AppendsAtMostOne(b.txs, Perform(b, op).0.txs)
  {
  }

  lemma OperationKeepsRows(b: Books, op: Op)
    requires Usable(b)
    ensures RowsStay(b, Perform(b, op).0)
  {
  }

  lemma AppendKeepsReversed(txs: seq<Transaction>, after: seq<Transaction>, source: Source)
    requires AppendsAtMostOne(txs, after) && PostingReversed(txs, source)
    ensures PostingReversed(after, source)
  {
    if after != txs {
      var t := after[|txs|];
      assert after == txs + [t];
      FindAfterAppend(txs, t, source);
      FindAfterAppend(txs, t, Source(LedgerReversal, Find(txs, source).value));
    }
  }

  /** What is reversed stays reversed, and what is there stays there. */
  lemma {:induction false} RunKeepsReversed(b: Books, ops: seq<Op>, source: Source)
    requires Usable(b) && PostingReversed(b.txs, source)
    ensures PostingReversed(Run(b, ops).txs, source) && RowsStay(b, Run(b, ops))
  {
    if ops != [] {
      var before := Run(b, ops[..|ops| - 1]);
      RunKeepsReversed(b, ops[..|ops| - 1], source);
      OperationAppends(before, ops[|ops| - 1]);
      AppendKeepsReversed(before.txs, Run(b, ops).txs, source);
      OperationKeepsRows(before, ops[|ops| - 1]);
    }
  }

  /** An uncrashed request to reverse row j of table i. */
  predicate Retries(b: Books, op: Op, i: nat, j: nat) {
    match op
    case DoReverseRepayment(l, r, _, crash) => !crash && i == 1 && j == r && r < |b.repayments| && b.repayments[r].loan == l
    case DoReversePayout(p, crash) => !crash && i == 2 && j == p && p < |b.payouts|
    case DoReverseContribution(c) => i == 3 && j == c && c < |b.contributions|
    case DoReverseFee(f, crash) => !crash && i == 4 && j < |b.feePayments| && b.feePayments[j].fee == f
    case _ => false
  }

  lemma AcceptedReversalUndoes(b: Books, op: Op, i: nat, j: nat)
    requires Usable(b) && Undoes(b, op) == Some((i, j)) && !Perform(b, op).1.Refused?
    ensures i < 5 && j < |Tables(b)[i]| && Tables(b)[i][j].counts
    ensures Perform(b, op).0.txs == Undo(b.chama, b.txs, Tables(b)[i][j])
  {
    if op.DoReverseFee? {
      FeePerformed(b, op);
    }
  }

  /** While the row is in flight, a retry goes through. */
  lemma RetryIsDone(b: Books, op: Op, i: nat, j: nat)
    requires LendingOk(b) && b.price > 0 && ContributionsOk(b.txs, b.contributions) && FeesSettled(b)
    requires Flying(b, i, j) && Retries(b, op, i, j)
    ensures Undoes(b, op) == Some((i, j)) && Perform(b, op).1 == Done
  {
    if i == 1 {
      BorrowerIsOut(b, j);
    } else if i == 4 {
      OnlyConfirmed(b.txs, b.fees, b.feePayments, j);
      FeePerformed(b, op);
    } else {
      OneCommitNeverFlies(b, i, j);
    }
  }

  lemma RetryGrounds(b: Books, op: Op, i: nat, j: nat)
    requires Inv(b) && Retries(b, op, i, j)
    ensures !Flying(Perform(b, op).0, i, j)
  {
    EveryOperationLands(b, op, i, j);
    CrashesOnlyWhenAsked(b, op);
    if Flying(b, i, j) {
      RetryIsDone(b, op, i, j);
    }
  }

  /**
   A reversal was accepted, and perhaps crashed between its commits. Then anything happened: other requests,
   crashes, retries of the same reversal. After one more request to reverse the row, its posting is stored once, is
   reversed once, and the row no longer counts.
   */
  lemma RetryAfterAnything(b: Books, first: Op, between: seq<Op>, again: Op, i: nat, j: nat)
    requires Inv(b) && Undoes(b, first) == Some((i, j)) && !Perform(b, first).1.Refused? && Retries(b, again, i, j)
    ensures var end := Perform(Run(Perform(b, first).0, between), again).0;
            i < 5 && j < |Tables(end)[i]| && !Tables(end)[i][j].counts && UndoneOnce(end.txs, Tables(end)[i][j].source)
  {
    FirstReverses(b, first, i, j);
    StillReversed(b, first, between, Source(KINDS[i], j));
    StillSoundBooks(b, first, between);
    RetryFinishes(b, Run(Perform(b, first).0, between), again, i, j);
  }

  lemma StillSoundBooks(b: Books, first: Op, between: seq<Op>)
    requires Inv(b)
    ensures Inv(Run(Perform(b, first).0, between))
  {
    EveryOperationKeeps(b, first, Account(b.chama, CASH));
    RunKeeps(Perform(b, first).0, between, Account(b.chama, CASH));
  }

  lemma StillReversed(b: Books, first: Op, between: seq<Op>, source: Source)
    requires Usable(b) && PostingReversed(Perform(b, first).0.txs, source)
    ensures PostingReversed(Run(Perform(b, first).0, between).txs, source) && RowsStay(b, Run(Perform(b, first).0, between))
  {
    OperationKeepsRows(b, first);
    RunKeepsReversed(Perform(b, first).0, between, source);
  }

  lemma FirstReverses(b: Books, first: Op, i: nat, j: nat)
    requires PostingsOk(b) && Usable(b) && Undoes(b, first) == Some((i, j)) && !Perform(b, first).1.Refused?
    ensures i < 5 && j < |Tables(b)[i]| && Tables(b)[i][j].source == Source(KINDS[i], j)
    ensures PostingReversed(Perform(b, first).0.txs, Source(KINDS[i], j))
  {
    AcceptedReversalUndoes(b, first, i, j);
    UndoTwice(b, i, j);
    RowSources(b, i, j);
  }

  lemma RetryFinishes(b: Books, mid: Books, again: Op, i: nat, j: nat)
    requires Inv(mid) && RowsStay(b, mid) && Retries(b, again, i, j) && i < 5 && PostingReversed(mid.txs, Source(KINDS[i], j))
    ensures var end := Perform(mid, again).0;
            j < |Tables(end)[i]| && !Tables(end)[i][j].counts && UndoneOnce(end.txs, Tables(end)[i][j].source)
  {
    var end := Perform(mid, again).0;
    SameTarget(b, mid, again, i, j);
    RetryGrounds(mid, again, i, j);
    OperationAppends(mid, again);
    AppendKeepsReversed(mid.txs, end.txs, Source(KINDS[i], j));
    RowRemains(b, mid, again, i, j);
    StillSoundBooks(mid, again, []);
    GroundedRow(end, i, j);
  }

  lemma SameTarget(b: Books, mid: Books, op: Op, i: nat, j: nat)
    requires RowsStay(b, mid) && Retries(b, op, i, j)
    ensures Retries(mid, op, i, j)
  {
  }

  lemma RowRemains(b: Books, mid: Books, op: Op, i: nat, j: nat)
    requires Usable(mid) && RowsStay(b, mid) && i < 5 && Retries(b, op, i, j)
    ensures j < |Tables(Perform(mid, op).0)[i]|
  {
    OperationKeepsRows(mid, op);
  }

  lemma GroundedRow(b: Books, i: nat, j: nat)
    requires PostingsOk(b) && i < 5 && j < |Tables(b)[i]| && !Flying(b, i, j) && PostingReversed(b.txs, Source(KINDS[i], j))
    ensures !Tables(b)[i][j].counts && UndoneOnce(b.txs, Tables(b)[i][j].source)
  {
    RowSources(b, i, j);
    SoundStoresPostOnce(b, Source(KINDS[i], j), Find(b.txs, Source(KINDS[i], j)).value);
  }
}
