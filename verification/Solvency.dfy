/**
 Cash over whole runs of the books: what a disbursement or a completed payout takes is always there. Only taking
 back money that had come in can make cash negative.
 */
module Solvency {
  import opened Wrappers
  import opened Calendar
  import opened Ledger
  import opened Subledger
  import opened Books
  import opened Reconciliation
  import opened Runs

  function CashAccount(b: Books): Account {
    Account(b.chama, CASH)
  }

  /** What reversals have taken back of the money that came in. */
  function TakenBackSoFar(b: Books): (total: int)
    ensures total >= 0
  {
    ReversedMoneyIn(b.txs, CashAccount(b))
  }

  /** Cash covers everything but what was taken back. */
  predicate Solvent(b: Books) {
    Cash(b) + TakenBackSoFar(b) >= 0
  }

  // ----- the two kinds of commit that touch cash ------------------------------------------------

  lemma PostingMovesCash(b: Books, after: Books, e: Entry)
    requires after.chama == b.chama && after.txs == b.txs + [PostingOf(b.chama, e)]
    ensures Cash(after) == Cash(b) + Net(e.lines, CashAccount(b)) && TakenBackSoFar(after) == TakenBackSoFar(b)
  {
    BalanceAfterAppend(b.txs, PostingOf(b.chama, e), CashAccount(b));
    GrossAfterAppend(b.txs, PostingOf(b.chama, e), CashAccount(b));
  }

  lemma UndoKeepsSolvent(b: Books, after: Books, e: Entry)
    requires Solvent(b) && after.chama == b.chama && after.txs == Undo(b.chama, b.txs, e)
    ensures Solvent(after)
  {
    if after.txs != b.txs {
      GrossAfterAppend(b.txs, ReversalOf(b.chama, b.txs, Find(b.txs, e.source).value, e.undo), CashAccount(b));
    }
  }

  lemma NetOfTwo(chama: nat, debited: nat, credited: nat, amount: int)
    requires debited != credited
    ensures Net([Debit(chama, debited, amount), Credit(chama, credited, amount)], Account(chama, CASH))
            == if debited == CASH then amount else if credited == CASH then -amount else 0
  {
    NetOfPair(Debit(chama, debited, amount), Credit(chama, credited, amount), Account(chama, CASH));
  }

  // ----- money out ------------------------------------------------------------------------------

  /**
   A loan is newly disbursed if and only if it is APPROVED and cash covers its principal. Cash falls by exactly the
   principal; the loan is dated today; an already DISBURSED loan is answered again, any other one is refused.
   */
  lemma DisbursedIff(b: Books, l: nat, today: Date)
    requires l < |b.loans|
    ensures var (after, outcome) := Disburse(b, l, today);
            var loan := b.loans[l];
            && (after != b <==> loan.status == Approved && loan.principal <= Cash(b))
            && (outcome == Done <==> after != b || loan.status == Disbursed)
            && (after != b ==>
                  && Cash(after) == Cash(b) - loan.principal
                  && after.loans[l] == loan.(status := Disbursed, disbursedOn := Some(today), maturesOn := Some(AddMonths(today, loan.term)))
                  && after == b.(loans := b.loans[l := after.loans[l]], txs := after.txs)
                  && |after.txs| == |b.txs| + 1)
  {
    var after := Disburse(b, l, today).0;
    if after.txs != b.txs {
      PostingMovesCash(b, after, LoanEntry(b.chama, l, after.loans[l]));
      NetOfTwo(b.chama, LOANS_RECEIVABLE, CASH, b.loans[l].principal);
    }
    assert |b.txs + [PostingOf(b.chama, LoanEntry(b.chama, l, b.loans[l]))]| == |b.txs| + 1;
  }

  /** A payout is newly completed if and only if it is PROCESSING and cash covers it; cash falls by exactly its amount. */
  lemma CompletedIff(b: Books, p: nat)
    requires p < |b.payouts|
    ensures var (after, outcome) := CompletePayout(b, p);
            var payout := b.payouts[p];
            && (after != b <==> payout.status == Processing && payout.amount <= Cash(b))
            && (outcome == Done <==> after != b || payout.status == Completed)
            && (after != b ==>
                  && Cash(after) == Cash(b) - payout.amount
                  && after == b.(payouts := b.payouts[p := payout.(status := Completed)], txs := after.txs)
                  && |after.txs| == |b.txs| + 1)
  {
    var after := CompletePayout(b, p).0;
    if after.txs != b.txs {
      PostingMovesCash(b, after, PayoutEntry(b.chama, p, after.payouts[p]));
      NetOfTwo(b.chama, SHARE_CAPITAL, CASH, b.payouts[p].amount);
    }
    assert |b.txs + [PostingOf(b.chama, PayoutEntry(b.chama, p, b.payouts[p]))]| == |b.txs| + 1;
  }

  // ----- every operation ------------------------------------------------------------------------

  lemma DisburseKeepsSolvent(b: Books, l: nat, today: Date)
    requires Solvent(b)
    ensures Solvent(Disburse(b, l, today).0)
  {
    var after := Disburse(b, l, today).0;
    if after != b {
      DisbursedIff(b, l, today);
      PostingMovesCash(b, after, LoanEntry(b.chama, l, after.loans[l]));
    }
  }

  lemma CompleteKeepsSolvent(b: Books, p: nat)
    requires Solvent(b)
    ensures Solvent(CompletePayout(b, p).0)
  {
    var after := CompletePayout(b, p).0;
    if after != b {
      CompletedIff(b, p);
      PostingMovesCash(b, after, PayoutEntry(b.chama, p, after.payouts[p]));
    }
  }

  lemma RepayKeepsSolvent(b: Books, l: nat, amount: int)
    requires Solvent(b) && SoundTerms(b.loans) && LoanSafe(b.loans, b.repayments)
    ensures Solvent(RecordRepayment(b, l, amount).0)
  {
    var after := RecordRepayment(b, l, amount).0;
    if after != b {
      var row := after.repayments[|b.repayments|];
      PostingMovesCash(b, after, RepaymentEntry(b.chama, |b.repayments|, row));
      NetOfRepayment(b.chama, row.amount, row.principalPortion, row.interestPortion, CashAccount(b));
    }
  }

  lemma SettleKeepsSolvent(b: Books, c: nat, tolerant: bool)
    requires Solvent(b) && b.price > 0 && ContributionsOk(b.txs, b.contributions)
    ensures Solvent(Settle(b, c, tolerant).0)
  {
    var after := Settle(b, c, tolerant).0;
    if after != b {
      PostingMovesCash(b, after, ContributionEntry(b.chama, c, after.contributions[c]));
      NetOfTwo(b.chama, CASH, SHARE_CAPITAL, b.contributions[c].amount);
    }
  }

  lemma PayKeepsSolvent(b: Books, f: nat)
    requires Solvent(b)
    ensures Solvent(PayFee(b, f).0)
  {
    var after := PayFee(b, f).0;
    if after != b {
      PostingMovesCash(b, after, FeeEntry(b.chama, |b.feePayments|, after.feePayments[|b.feePayments|]));
      NetOfTwo(b.chama, CASH, REGISTRATION_FEES, b.fees[f].amount);
    }
  }

  /** The posting that an accepted reversal undoes, if the request is a reversal. */
  lemma ReversalKeepsSolvent(b: Books, op: Op)
    requires Solvent(b) && Usable(b)
    requires op.DoReverseRepayment? || op.DoReversePayout? || op.DoReverseContribution? || op.DoReverseFee?
    ensures Solvent(Perform(b, op).0)
  {
    var after := Perform(b, op).0;
    if !Perform(b, op).1.Refused? {
      match op {
        case DoReverseRepayment(l, r, _, _) => UndoKeepsSolvent(b, after, RepaymentEntry(b.chama, r, b.repayments[r]));
        case DoReversePayout(p, _) => UndoKeepsSolvent(b, after, PayoutEntry(b.chama, p, b.payouts[p]));
        case DoReverseContribution(c) => UndoKeepsSolvent(b, after, ContributionEntry(b.chama, c, b.contributions[c]));
        case DoReverseFee(f, _) =>
          FeePerformed(b, op);
          var p := ConfirmedPayment(b.feePayments, f).value;
          UndoKeepsSolvent(b, after, FeeEntry(b.chama, p, b.feePayments[p]));
      }
    }
  }

  predicate TouchesNoCash(op: Op) {
    || op.DoApply? || op.DoMoveLoan? || op.DoRequestPayout? || op.DoMovePayout?
    || op.DoRecord? || op.DoOpenFee? || op.DoWaive?
  }

  lemma OthersPostNothing(b: Books, op: Op)
    requires Usable(b) && TouchesNoCash(op)
    ensures Perform(b, op).0.txs == b.txs
  {
  }

  lemma OperationKeepsSolvent(b: Books, op: Op)
    requires Inv(b) && Solvent(b)
    ensures Solvent(Perform(b, op).0)
  {
    match op {
      case DoDisburse(loan, today) => DisburseKeepsSolvent(b, loan, today);
      case DoComplete(payout) => CompleteKeepsSolvent(b, payout);
      case DoRepay(loan, amount) => RepayKeepsSolvent(b, loan, amount);
      case DoSettle(contribution, tolerant) => SettleKeepsSolvent(b, contribution, tolerant);
      case DoPay(fee) => PayKeepsSolvent(b, fee);
      case DoReverseRepayment(_, _, _, _) => ReversalKeepsSolvent(b, op);
      case DoReversePayout(_, _) => ReversalKeepsSolvent(b, op);
      case DoReverseContribution(_) => ReversalKeepsSolvent(b, op);
      case DoReverseFee(_, _) => ReversalKeepsSolvent(b, op);
      case _ => OthersPostNothing(b, op);
    }
  }

  // ----- runs -----------------------------------------------------------------------------------

  lemma {:induction false} RunKeepsSolvent(b: Books, ops: seq<Op>)
    requires Inv(b) && Solvent(b)
    ensures Solvent(Run(b, ops))
  {
    if ops != [] {
      RunKeepsSolvent(b, ops[..|ops| - 1]);
      RunKeeps(b, ops[..|ops| - 1], CashAccount(b));
      OperationKeepsSolvent(Run(b, ops[..|ops| - 1]), ops[|ops| - 1]);
    }
  }

  /**
   Over every run from the empty database cash plus what was taken back of the money that came in is never negative;
   cash itself is negative only if some transaction that brought money in has been reversed.
   */
  lemma EveryRunIsSolvent(chama: nat, price: int, ops: seq<Op>)
    requires price > 0
    ensures var b := RunFromEmpty(chama, price, ops);
            && Cash(b) + ReversedMoneyIn(b.txs, Account(chama, CASH)) >= 0
            && (Cash(b) < 0 ==> exists k :: 0 <= k < |b.txs| && b.txs[k].reverses.Some? && Net(b.txs[k].lines, Account(chama, CASH)) < 0)
  {
    var b := RunFromEmpty(chama, price, ops);
    OpenedIsSound(chama, price, Account(chama, CASH));
    RunKeepsSolvent(Opened(chama, price), ops);
    if Cash(b) < 0 {
      SomeMoneyTakenBack(b.txs, Account(chama, CASH));
    }
  }
}
