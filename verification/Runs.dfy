/** Runs of the books from the empty database, and what every committed state of a run satisfies. */
module Runs {
  import opened Wrappers
  import opened Money
  import opened Calendar
  import opened Ledger
  import opened Tally
  import opened Subledger
  import opened Books
  import opened Reconciliation

  function Perform(b: Books, op: Op): (end: (Books, Outcome))
    requires Usable(b)
    ensures Usable(end.0) && end.0.price == b.price && end.0.chama == b.chama
  {
    match op
    case DoApply(member, principal, term, tenured) => ApplyForLoan(b, member, principal, term, tenured)
    case DoMoveLoan(loan, to) => MoveLoan(b, loan, to)
    case DoDisburse(loan, today) => Disburse(b, loan, today)
    case DoRepay(loan, amount) => RecordRepayment(b, loan, amount)
    case DoReverseRepayment(loan, repayment, view, crash) => ReverseRepayment(b, loan, repayment, view, crash)
    case DoRequestPayout(member, amount) => RequestPayout(b, member, amount)
    case DoMovePayout(payout, to) => MovePayout(b, payout, to)
    case DoComplete(payout) => CompletePayout(b, payout)
    case DoReversePayout(payout, crash) => ReversePayout(b, payout, crash)
    case DoRecord(member, amount, period) => RecordContribution(b, member, amount, period)
    case DoSettle(contribution, tolerant) => Settle(b, contribution, tolerant)
    case DoReverseContribution(contribution) => ReverseContribution(b, contribution)
    case DoOpenFee(member, amount) => OpenFee(b, member, amount)
    case DoWaive(fee) => WaiveFee(b, fee)
    case DoPay(fee) => PayFee(b, fee)
    case DoReverseFee(fee, crash) => ReverseFee(b, fee, crash)
  }

  predicate Lends(op: Op) {
    op.DoApply? || op.DoMoveLoan? || op.DoDisburse? || op.DoRepay? || op.DoReverseRepayment?
  }

  lemma LendingKeeps(b: Books, op: Op, account: Account)
    requires Inv(b) && Lends(op)
    ensures Keeps(b, Perform(b, op).0, account)
  {
    match op {
      case DoApply(member, principal, term, tenured) => ApplyForLoanKeeps(b, member, principal, term, tenured, account);
      case DoMoveLoan(loan, to) => MoveLoanKeeps(b, loan, to, account);
      case DoDisburse(loan, today) => DisburseKeeps(b, loan, today, account);
      case DoRepay(loan, amount) => RecordRepaymentKeeps(b, loan, amount, account);
      case DoReverseRepayment(loan, repayment, view, crash) => ReverseRepaymentKeeps(b, loan, repayment, view, crash, account);
    }
  }

  predicate ChargesFees(op: Op) {
    op.DoOpenFee? || op.DoWaive? || op.DoPay? || op.DoReverseFee?
  }

  /** The fee operations by name. */
  lemma FeePerformed(b: Books, op: Op)
    requires Usable(b)
    ensures op.DoOpenFee? ==> Perform(b, op) == OpenFee(b, op.member, op.amount)
    ensures op.DoWaive? ==> Perform(b, op) == WaiveFee(b, op.fee)
    ensures op.DoPay? ==> Perform(b, op) == PayFee(b, op.fee)
    ensures op.DoReverseFee? ==> Perform(b, op) == ReverseFee(b, op.fee, op.crash)
  {
  }

  lemma FeesKeep(b: Books, op: Op, account: Account)
    requires Inv(b) && ChargesFees(op)
    ensures Keeps(b, Perform(b, op).0, account)
  {
    FeePerformed(b, op);
    match op {
      case DoOpenFee(member, amount) => OpenFeeKeeps(b, member, amount, account);
      case DoWaive(fee) => WaiveFeeKeeps(b, fee, account);
      case DoPay(fee) => PayFeeKeeps(b, fee, account);
      case DoReverseFee(fee, crash) => ReverseFeeKeeps(b, fee, crash, account);
    }
  }

  lemma SavingKeeps(b: Books, op: Op, account: Account)
    requires Inv(b) && !Lends(op) && !ChargesFees(op)
    ensures Keeps(b, Perform(b, op).0, account)
  {
    match op {
      case DoRequestPayout(member, amount) => RequestPayoutKeeps(b, member, amount, account);
      case DoMovePayout(payout, to) => MovePayoutKeeps(b, payout, to, account);
      case DoComplete(payout) => CompletePayoutKeeps(b, payout, account);
      case DoReversePayout(payout, crash) => ReversePayoutKeeps(b, payout, crash, account);
      case DoRecord(member, amount, period) => RecordContributionKeeps(b, member, amount, period, account);
      case DoSettle(contribution, tolerant) => SettleKeeps(b, contribution, tolerant, account);
      case DoReverseContribution(contribution) => ReverseContributionKeeps(b, contribution, account);
    }
  }

  /** Every operation, crash or not, flushed or stale, keeps the books sound and reconciled. */
  lemma EveryOperationKeeps(b: Books, op: Op, account: Account)
    requires Inv(b)
    ensures Keeps(b, Perform(b, op).0, account)
  {
    if Lends(op) {
      LendingKeeps(b, op, account);
    } else if ChargesFees(op) {
      FeesKeep(b, op, account);
    } else {
      SavingKeeps(b, op, account);
    }
  }

  function Run(b: Books, ops: seq<Op>): (end: Books)
    requires Usable(b)
    ensures Usable(end) && end.price == b.price && end.chama == b.chama
  {
    if ops == [] then b else Perform(Run(b, ops[..|ops| - 1]), ops[|ops| - 1]).0
  }

  lemma RunOneMore(b: Books, ops: seq<Op>, op: Op)
    requires Usable(b)
    ensures Run(b, ops + [op]) == Perform(Run(b, ops), op).0
  {
  }

  /** Every run from sound books ends in sound books, reconciled on each account it started reconciled on. */
  lemma {:induction false} RunKeeps(b: Books, ops: seq<Op>, account: Account)
    requires Inv(b)
    ensures Keeps(b, Run(b, ops), account)
  {
    if ops != [] {
      var before := Run(b, ops[..|ops| - 1]);
      RunKeeps(b, ops[..|ops| - 1], account);
      EveryOperationKeeps(before, ops[|ops| - 1], account);
    }
  }

  function RunFromEmpty(chama: nat, price: int, ops: seq<Op>): Books
    requires price > 0
  {
    Run(Opened(chama, price), ops)
  }

  lemma RunFromEmptyIsSound(chama: nat, price: int, ops: seq<Op>, account: Account)
    requires price > 0
    ensures Inv(RunFromEmpty(chama, price, ops)) && Reconciled(RunFromEmpty(chama, price, ops), account)
    ensures RunFromEmpty(chama, price, ops).chama == chama && RunFromEmpty(chama, price, ops).price == price
  {
    OpenedIsSound(chama, price, account);
    RunKeeps(Opened(chama, price), ops, account);
  }

  // ----- the status side, account by account ----------------------------------------------------

  function DisbursedItems(rows: seq<Loan>): (items: seq<Item<nat>>)
    ensures |items| == |rows|
  {
    seq(|rows|, i requires 0 <= i < |rows| => Item(i, if Out(rows[i].status) then rows[i].principal else 0))
  }

  function RepaidItems(rows: seq<Repayment>): (items: seq<Item<nat>>)
    ensures |items| == |rows|
  {
    seq(|rows|, i requires 0 <= i < |rows| => Item(rows[i].loan, if rows[i].confirmed then rows[i].amount else 0))
  }

  function ConfirmedItems(rows: seq<Contribution>): (items: seq<Item<nat>>)
    ensures |items| == |rows|
  {
    seq(|rows|, i requires 0 <= i < |rows| => Item(rows[i].member, if rows[i].status == Confirmed then rows[i].amount else 0))
  }

  function PaidFeeItems(rows: seq<Fee>): (items: seq<Item<nat>>)
    ensures |items| == |rows|
  {
    seq(|rows|, i requires 0 <= i < |rows| => Item(i, if rows[i].status == Paid then rows[i].amount else 0))
  }

  /** Outstanding principal of every loan that is out. */
  function OutstandingItems(loans: seq<Loan>, repayments: seq<Repayment>): (items: seq<Item<nat>>)
    ensures |items| == |loans|
  {
    seq(|loans|, i requires 0 <= i < |loans| =>
      Item(i, if Out(loans[i].status) then loans[i].principal - PaidPrincipal(repayments, i) else 0))
  }

  lemma {:induction false} ScaledSum<S, T>(xs: seq<Item<S>>, ys: seq<Item<T>>, factor: int)
    requires |xs| == |ys| && forall i :: 0 <= i < |xs| ==> xs[i].value == factor * ys[i].value
    ensures Sum(xs) == factor * Sum(ys)
  {
    if xs != [] {
      ScaledSum(xs[..|xs| - 1], ys[..|ys| - 1], factor);
    }
  }

  lemma NetOfPair(a: Line, b: Line, account: Account)
    ensures Net([a, b], account) == (if a.account == account then a.debit - a.credit else 0)
                                    + (if b.account == account then b.debit - b.credit else 0)
  {
    assert [a, b][..1] == [a] && [a][..0] == [];
    assert Net([a], account) == if a.account == account then a.debit - a.credit else 0;
  }

  /** Which way a code moves when a debit and a credit of one unit are posted. */
  function Sign(code: nat, debited: nat, credited: nat): int {
    if code == debited then 1 else if code == credited then -1 else 0
  }

  lemma LoanTable(chama: nat, rows: seq<Loan>, code: nat)
    ensures Sum(CountedItems(LoanEntries(chama, rows), Account(chama, code)))
            == Sign(code, LOANS_RECEIVABLE, CASH) * Sum(DisbursedItems(rows))
  {
    var account := Account(chama, code);
    var xs, ys := CountedItems(LoanEntries(chama, rows), account), DisbursedItems(rows);
    forall i | 0 <= i < |rows| ensures xs[i].value == Sign(code, LOANS_RECEIVABLE, CASH) * ys[i].value {
      NetOfPair(Debit(chama, LOANS_RECEIVABLE, rows[i].principal), Credit(chama, CASH, rows[i].principal), account);
    }
    ScaledSum(xs, ys, Sign(code, LOANS_RECEIVABLE, CASH));
  }

  lemma PayoutTable(chama: nat, rows: seq<Payout>, code: nat)
    ensures Sum(CountedItems(PayoutEntries(chama, rows), Account(chama, code)))
            == Sign(code, SHARE_CAPITAL, CASH) * Sum(CompletedItems(rows))
  {
    var account := Account(chama, code);
    var xs, ys := CountedItems(PayoutEntries(chama, rows), account), CompletedItems(rows);
    forall i | 0 <= i < |rows| ensures xs[i].value == Sign(code, SHARE_CAPITAL, CASH) * ys[i].value {
      NetOfPair(Debit(chama, SHARE_CAPITAL, rows[i].amount), Credit(chama, CASH, rows[i].amount), account);
    }
    ScaledSum(xs, ys, Sign(code, SHARE_CAPITAL, CASH));
  }

  lemma ContributionTable(chama: nat, rows: seq<Contribution>, code: nat)
    ensures Sum(CountedItems(ContributionEntries(chama, rows), Account(chama, code)))
            == Sign(code, CASH, SHARE_CAPITAL) * Sum(ConfirmedItems(rows))
  {
    var account := Account(chama, code);
    var xs, ys := CountedItems(ContributionEntries(chama, rows), account), ConfirmedItems(rows);
    forall i | 0 <= i < |rows| ensures xs[i].value == Sign(code, CASH, SHARE_CAPITAL) * ys[i].value {
      NetOfPair(Debit(chama, CASH, rows[i].amount), Credit(chama, SHARE_CAPITAL, rows[i].amount), account);
    }
    ScaledSum(xs, ys, Sign(code, CASH, SHARE_CAPITAL));
  }

  lemma FeeTable(chama: nat, rows: seq<FeePayment>, code: nat)
    ensures Sum(CountedItems(FeeEntries(chama, rows), Account(chama, code)))
            == Sign(code, CASH, REGISTRATION_FEES) * Sum(FeePaidItems(rows))
  {
    var account := Account(chama, code);
    var xs, ys := CountedItems(FeeEntries(chama, rows), account), FeePaidItems(rows);
    forall i | 0 <= i < |rows| ensures xs[i].value == Sign(code, CASH, REGISTRATION_FEES) * ys[i].value {
      NetOfPair(Debit(chama, CASH, rows[i].amount), Credit(chama, REGISTRATION_FEES, rows[i].amount), account);
    }
    ScaledSum(xs, ys, Sign(code, CASH, REGISTRATION_FEES));
  }

  lemma NetOfRepayment(chama: nat, amount: int, principal: int, interest: int, account: Account)
    requires principal >= 0 && interest >= 0
    ensures Net(RepaymentLines(chama, amount, principal, interest), account)
            == if account == Account(chama, CASH) then amount
               else if account == Account(chama, LOANS_RECEIVABLE) then -principal
               else if account == Account(chama, INTEREST_INCOME) then -interest
               else 0
  {
    var lines := RepaymentLines(chama, amount, principal, interest);
    assert lines[..1] == [lines[0]] && lines[..1][..0] == [];
    assert Net(lines[..1], account) == if account == Account(chama, CASH) then amount else 0;
    if |lines| == 3 {
      assert lines[..2][..1] == lines[..1];
    }
    if |lines| > 1 {
      assert Net(lines[..2], account) == Net(lines[..1], account) + Net([lines[1]], account) by {
        assert lines[..2][..1] == lines[..1] && [lines[1]][..0] == [];
      }
    }
  }

  function RepaymentShare(rows: seq<Repayment>, code: nat): int {
    if code == CASH then Sum(RepaidItems(rows))
    else if code == LOANS_RECEIVABLE then -Sum(PrincipalItems(rows))
    else if code == INTEREST_INCOME then -Sum(InterestItems(rows))
    else 0
  }

  lemma RepaymentTable(chama: nat, rows: seq<Repayment>, code: nat)
    requires forall i :: 0 <= i < |rows| ==> rows[i].principalPortion >= 0 && rows[i].interestPortion >= 0
    ensures Sum(CountedItems(RepaymentEntries(chama, rows), Account(chama, code))) == RepaymentShare(rows, code)
  {
    var xs := CountedItems(RepaymentEntries(chama, rows), Account(chama, code));
    forall i | 0 <= i < |rows|
      ensures xs[i].value == if !rows[i].confirmed then 0
                             else if code == CASH then rows[i].amount
                             else if code == LOANS_RECEIVABLE then -rows[i].principalPortion
                             else if code == INTEREST_INCOME then -rows[i].interestPortion
                             else 0
    {
      NetOfRepayment(chama, rows[i].amount, rows[i].principalPortion, rows[i].interestPortion, Account(chama, code));
    }
    if code == CASH {
      ScaledSum(xs, RepaidItems(rows), 1);
    } else if code == LOANS_RECEIVABLE {
      ScaledSum(xs, PrincipalItems(rows), -1);
    } else if code == INTEREST_INCOME {
      ScaledSum(xs, InterestItems(rows), -1);
    } else {
      ScaledSum(xs, RepaidItems(rows), 0);
    }
  }

  lemma StatusViewOfFive(
      t0: seq<Entry>, t1: seq<Entry>, t2: seq<Entry>, t3: seq<Entry>, t4: seq<Entry>, account: Account)
    ensures StatusView([t0, t1, t2, t3, t4], account)
            == Sum(CountedItems(t0, account)) + Sum(CountedItems(t1, account)) + Sum(CountedItems(t2, account))
             + Sum(CountedItems(t3, account)) + Sum(CountedItems(t4, account))
  {
    assert [t0, t1, t2, t3, t4][..4] == [t0, t1, t2, t3] && [t0, t1, t2, t3][..3] == [t0, t1, t2];
    assert [t0, t1, t2][..2] == [t0, t1] && [t0, t1][..1] == [t0] && [t0][..0] == [];
    assert StatusView([t0], account) == Sum(CountedItems(t0, account));
    assert StatusView([t0, t1], account) == StatusView([t0], account) + Sum(CountedItems(t1, account));
    assert StatusView([t0, t1, t2], account) == StatusView([t0, t1], account) + Sum(CountedItems(t2, account));
  }

  /** What the statuses of the rows say an account should hold. */
  function Expected(b: Books, code: nat): int {
    Sign(code, LOANS_RECEIVABLE, CASH) * Sum(DisbursedItems(b.loans))
    + RepaymentShare(b.repayments, code)
    + Sign(code, SHARE_CAPITAL, CASH) * Sum(CompletedItems(b.payouts))
    + Sign(code, CASH, SHARE_CAPITAL) * Sum(ConfirmedItems(b.contributions))
    + Sign(code, CASH, REGISTRATION_FEES) * Sum(FeePaidItems(b.feePayments))
  }

  lemma StatusViewIsExpected(b: Books, code: nat)
    requires Inv(b)
    ensures StatusView(Tables(b), Account(b.chama, code)) == Expected(b, code)
  {
    assert forall i :: 0 <= i < |b.repayments| ==> RepaymentOk(b.loans, b.repayments[i]);
    StatusViewOfFive(LoanEntries(b.chama, b.loans), RepaymentEntries(b.chama, b.repayments), PayoutEntries(b.chama, b.payouts),
                     ContributionEntries(b.chama, b.contributions), FeeEntries(b.chama, b.feePayments), Account(b.chama, code));
    LoanTable(b.chama, b.loans, code);
    RepaymentTable(b.chama, b.repayments, code);
    PayoutTable(b.chama, b.payouts, code);
    ContributionTable(b.chama, b.contributions, code);
    FeeTable(b.chama, b.feePayments, code);
  }

  // ----- grouping by loan and by fee ------------------------------------------------------------

  function Ids(n: nat): (ids: seq<nat>)
    ensures |ids| == n && forall i :: 0 <= i < n ==> ids[i] == i
  {
    seq(n, i => i)
  }

  lemma {:induction false} OutstandingByLoan(loans: seq<Loan>, repayments: seq<Repayment>)
    requires forall l :: 0 <= l < |loans| && !Out(loans[l].status) ==> PaidPrincipal(repayments, l) == 0
    ensures Sum(OutstandingItems(loans, repayments))
            == Sum(DisbursedItems(loans)) - Over(PrincipalItems(repayments), Ids(|loans|))
  {
    if loans != [] {
      var n := |loans| - 1;
      OutstandingByLoan(loans[..n], repayments);
      assert OutstandingItems(loans, repayments)[..n] == OutstandingItems(loans[..n], repayments);
      assert DisbursedItems(loans)[..n] == DisbursedItems(loans[..n]);
      assert Ids(|loans|)[..n] == Ids(n);
    }
  }

  lemma OutstandingPrincipalIsUnpaidPrincipal(b: Books)
    requires Inv(b)
    ensures Sum(OutstandingItems(b.loans, b.repayments)) == Sum(DisbursedItems(b.loans)) - Sum(PrincipalItems(b.repayments))
  {
    forall l | 0 <= l < |b.loans| && !Out(b.loans[l].status) ensures PaidPrincipal(b.repayments, l) == 0 {
      UnknownLoanIsUnpaid(b, l);
    }
    OutstandingByLoan(b.loans, b.repayments);
    forall i | 0 <= i < |b.repayments| ensures PrincipalItems(b.repayments)[i].group in Ids(|b.loans|) {
      assert RepaymentOk(b.loans, b.repayments[i]);
      assert Ids(|b.loans|)[b.repayments[i].loan] == b.repayments[i].loan;
    }
    GroupsAddUp(PrincipalItems(b.repayments), Ids(|b.loans|));
  }

  lemma {:induction false} PaidByFee(fees: seq<Fee>, payments: seq<FeePayment>)
    requires forall f :: 0 <= f < |fees| ==> In(FeePaidItems(payments), f) == if fees[f].status == Paid then fees[f].amount else 0
    ensures Sum(PaidFeeItems(fees)) == Over(FeePaidItems(payments), Ids(|fees|))
  {
    if fees != [] {
      var n := |fees| - 1;
      PaidByFee(fees[..n], payments);
      assert PaidFeeItems(fees)[..n] == PaidFeeItems(fees[..n]);
      assert Ids(|fees|)[..n] == Ids(n);
    }
  }

  lemma PaidFeesAreConfirmedPayments(b: Books)
    requires Inv(b)
    ensures Sum(PaidFeeItems(b.fees)) == Sum(FeePaidItems(b.feePayments))
  {
    PaidByFee(b.fees, b.feePayments);
    forall i | 0 <= i < |b.feePayments| ensures FeePaidItems(b.feePayments)[i].group in Ids(|b.fees|) {
      assert Ids(|b.fees|)[b.feePayments[i].fee] == b.feePayments[i].fee;
    }
    GroupsAddUp(FeePaidItems(b.feePayments), Ids(|b.fees|));
  }

  // ----- reconciliation -------------------------------------------------------------------------

  /** The postings whose reversal is in the ledger while the row still counts, on one account. */
  function InTransit(b: Books, code: nat): int {
    InFlightView(b.txs, Tables(b), Account(b.chama, code))
  }

  /**
   Reconciliation over every run, with crashes between the two commits of a reversal anywhere: the five
   balances read from the entries are the figures read from the rows, except for the postings in flight.
   */
  lemma EveryRunReconciles(chama: nat, price: int, ops: seq<Op>)
    requires price > 0
    ensures var b := RunFromEmpty(chama, price, ops);
            var contributions, payouts := Sum(ConfirmedItems(b.contributions)), Sum(CompletedItems(b.payouts));
            && Balance(b.txs, Account(chama, LOANS_RECEIVABLE)) + InTransit(b, LOANS_RECEIVABLE)
               == Sum(OutstandingItems(b.loans, b.repayments))
            && Balance(b.txs, Account(chama, INTEREST_INCOME)) + InTransit(b, INTEREST_INCOME)
               == -Sum(InterestItems(b.repayments))
            && Balance(b.txs, Account(chama, REGISTRATION_FEES)) + InTransit(b, REGISTRATION_FEES)
               == -Sum(PaidFeeItems(b.fees))
            && Balance(b.txs, Account(chama, SHARE_CAPITAL)) + InTransit(b, SHARE_CAPITAL)
               == payouts - contributions
            && Balance(b.txs, Account(chama, CASH)) + InTransit(b, CASH)
               == contributions + Sum(RepaidItems(b.repayments)) + Sum(PaidFeeItems(b.fees))
                  - Sum(DisbursedItems(b.loans)) - payouts
  {
    var b := RunFromEmpty(chama, price, ops);
    RunFromEmptyIsReconciled(chama, price, ops, LOANS_RECEIVABLE);
    RunFromEmptyIsReconciled(chama, price, ops, INTEREST_INCOME);
    RunFromEmptyIsReconciled(chama, price, ops, REGISTRATION_FEES);
    RunFromEmptyIsReconciled(chama, price, ops, SHARE_CAPITAL);
    RunFromEmptyIsReconciled(chama, price, ops, CASH);
    OutstandingPrincipalIsUnpaidPrincipal(b);
    PaidFeesAreConfirmedPayments(b);
  }

  lemma RunFromEmptyIsReconciled(chama: nat, price: int, ops: seq<Op>, code: nat)
    requires price > 0
    ensures var b := RunFromEmpty(chama, price, ops);
            Inv(b) && Balance(b.txs, Account(chama, code)) + InTransit(b, code) == Expected(b, code)
  {
    RunFromEmptyIsSound(chama, price, ops, Account(chama, code));
    SoundBooksReconcile(RunFromEmpty(chama, price, ops), code);
  }

  lemma SoundBooksReconcile(b: Books, code: nat)
    requires Inv(b) && Reconciled(b, Account(b.chama, code))
    ensures Balance(b.txs, Account(b.chama, code)) + InTransit(b, code) == Expected(b, code)
  {
    ViewsDifferByInFlight(b.chama, b.txs, Tables(b), Account(b.chama, code));
    StatusViewIsExpected(b, code);
  }

  /** Nothing is between its two commits. */
  ghost predicate Settled(b: Books) {
    forall i, j :: 0 <= i < |Tables(b)| && 0 <= j < |Tables(b)[i]| ==> !InFlight(b.txs, Tables(b)[i][j])
  }

  lemma {:induction false} NothingInTransit(txs: seq<Transaction>, tables: seq<seq<Entry>>, account: Account)
    requires forall i, j :: 0 <= i < |tables| && 0 <= j < |tables[i]| ==> !InFlight(txs, tables[i][j])
    ensures InFlightView(txs, tables, account) == 0
  {
    if tables != [] {
      var last := tables[|tables| - 1];
      NothingInTransit(txs, tables[..|tables| - 1], account);
      ScaledSum(InFlightItems(txs, last, account), CountedItems(last, account), 0);
    }
  }

  /** With no reversal in flight the two sides are equal, and cash is what came in minus what went out. */
  lemma SettledBooksBalance(b: Books, code: nat)
    requires Inv(b) && Reconciled(b, Account(b.chama, code)) && Settled(b)
    ensures Balance(b.txs, Account(b.chama, code)) == Expected(b, code)
  {
    SoundBooksReconcile(b, code);
    NothingInTransit(b.txs, Tables(b), Account(b.chama, code));
  }
}
