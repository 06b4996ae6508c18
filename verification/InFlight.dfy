/**
 Which rows are between the two commits of a reversal. A row is in flight exactly when the last reversal request that
 reached it crashed; so runs without such crashes leave nothing in flight, and their books balance outright.
 */
module Flights {
  import opened Wrappers
  import opened Money
  import opened Calendar
  import opened Ledger
  import opened Tally
  import opened Subledger
  import opened Books
  import opened Reconciliation
  import opened Runs

  /** Row j of table i has its reversal in the ledger while its status still counts. */
  ghost predicate Flying(b: Books, i: nat, j: nat) {
    i < |Tables(b)| && j < |Tables(b)[i]| && InFlight(b.txs, Tables(b)[i][j])
  }

  /** A request that crashes between its commits. */
  predicate Crashes(op: Op) {
    (op.DoReverseRepayment? || op.DoReversePayout? || op.DoReverseFee?) && op.crash
  }

  /** The row whose posting a request would reverse. */
  function Undoes(b: Books, op: Op): Option<(nat, nat)> {
    match op
    case DoReverseRepayment(_, r, _, _) => Some((1, r))
    case DoReversePayout(p, _) => Some((2, p))
    case DoReverseContribution(c) => Some((3, c))
    case DoReverseFee(f, _) =>
      (match ConfirmedPayment(b.feePayments, f)
       case None => None
       case Some(p) => Some((4, p)))
    case _ => None
  }

  /** What a request makes of row (i, j): a reversal of it settles it unless it crashes, anything else leaves it. */
  ghost predicate Lands(b: Books, op: Op, i: nat, j: nat)
    requires Usable(b)
  {
    var (after, outcome) := Perform(b, op);
    Flying(after, i, j) <==>
    if Undoes(b, op) == Some((i, j)) && !outcome.Refused? then outcome == Crashed else Flying(b, i, j)
  }

  // ----- the three kinds of commit --------------------------------------------------------------

  lemma RowSources(b: Books, i: nat, j: nat)
    requires PostingsOk(b) && i < |Tables(b)| && j < |Tables(b)[i]|
    ensures i < |KINDS| && KINDS[i] != LedgerReversal
    ensures Tables(b)[i][j].source == Source(KINDS[i], j) && Agrees(b.chama, b.txs, Tables(b)[i][j])
  {
  }

  lemma QuietFlight(b: Books, after: Books, x: nat, y: nat, i: nat, j: nat)
    requires RowMoved(b, after, x, y) && after.txs == b.txs
    requires Tables(after)[x][y].counts <==> y < |Tables(b)[x]| && Tables(b)[x][y].counts
    ensures Flying(after, i, j) <==> Flying(b, i, j)
  {
  }

  lemma PostingFlight(b: Books, after: Books, x: nat, y: nat, i: nat, j: nat)
    requires PostingsOk(b) && RowMoved(b, after, x, y) && Tables(after)[x][y].counts
    requires y == |Tables(b)[x]| || Find(b.txs, Source(KINDS[x], y)).None?
    requires Balanced(Chart(b.chama), b.chama, Tables(after)[x][y].lines)
    requires after.txs == b.txs + [PostingOf(b.chama, Tables(after)[x][y])]
    ensures Flying(after, i, j) <==> Flying(b, i, j)
  {
    PostingStep(b, after, x, y, Account(b.chama, CASH));
    if i < |Tables(b)| && j < |Tables(b)[i]| {
      RowSources(b, i, j);
    }
  }

  lemma ReversalFlight(b: Books, after: Books, x: nat, y: nat, i: nat, j: nat)
    requires PostingsOk(b) && RowMoved(b, after, x, y) && y < |Tables(b)[x]| && Tables(b)[x][y].counts
    requires after.txs == Undo(b.chama, b.txs, Tables(b)[x][y])
    ensures Flying(after, i, j) <==> if i == x && j == y then Tables(after)[x][y].counts else Flying(b, i, j)
  {
    ReversalStep(b, after, x, y, Account(b.chama, CASH));
    if i < |Tables(b)| && j < |Tables(b)[i]| {
      RowSources(b, i, j);
    }
  }

  // ----- each operation -------------------------------------------------------------------------

  lemma ApplyLands(b: Books, member: nat, principal: int, term: int, tenured: bool, i: nat, j: nat)
    requires Usable(b)
    ensures Lands(b, DoApply(member, principal, term, tenured), i, j)
  {
    var after := ApplyForLoan(b, member, principal, term, tenured).0;
    if after != b {
      OnlyLoanRow(b, after, |b.loans|);
      QuietFlight(b, after, 0, |b.loans|, i, j);
    }
  }

  lemma MoveLoanLands(b: Books, l: nat, to: LoanStatus, i: nat, j: nat)
    requires Usable(b)
    ensures Lands(b, DoMoveLoan(l, to), i, j)
  {
    var (after, outcome) := MoveLoan(b, l, to);
    if outcome == Done {
      OnlyLoanRow(b, after, l);
      QuietFlight(b, after, 0, l, i, j);
    }
  }

  lemma DisburseLands(b: Books, l: nat, today: Date, i: nat, j: nat)
    requires PostingsOk(b) && Usable(b) && LoansOk(b.txs, b.loans)
    ensures Lands(b, DoDisburse(l, today), i, j)
  {
    var after := Disburse(b, l, today).0;
    if after != b {
      OnlyLoanRow(b, after, l);
      PairIsBalanced(b.chama, LOANS_RECEIVABLE, CASH, b.loans[l].principal);
      PostingFlight(b, after, 0, l, i, j);
    }
  }

  lemma RepayLands(b: Books, l: nat, amount: int, i: nat, j: nat)
    requires PostingsOk(b) && Usable(b) && LoanSafe(b.loans, b.repayments)
    ensures Lands(b, DoRepay(l, amount), i, j)
  {
    var after := RecordRepayment(b, l, amount).0;
    if after != b {
      var r := |b.repayments|;
      var row := after.repayments[r];
      SameLoanEntries(b.chama, b.loans, l, after.loans[l].status);
      OnlyRepaymentRow(b, after, r);
      RepaymentIsBalanced(b.chama, row.amount, row.principalPortion, row.interestPortion);
      PostingFlight(b, after, 1, r, i, j);
    }
  }

  lemma ReverseRepaymentLands(b: Books, l: nat, r: nat, view: Visibility, crash: bool, i: nat, j: nat)
    requires PostingsOk(b) && Usable(b) && RepaymentsOk(b.txs, b.loans, b.repayments)
    ensures Lands(b, DoReverseRepayment(l, r, view, crash), i, j)
  {
    var (after, outcome) := ReverseRepayment(b, l, r, view, crash);
    if !outcome.Refused? {
      BorrowerIsOut(b, r);
      RepaymentReversalMoves(b, l, r, view, crash);
      ReversalFlight(b, after, 1, r, i, j);
    }
  }

  lemma BorrowerIsOut(b: Books, r: nat)
    requires RepaymentsOk(b.txs, b.loans, b.repayments) && r < |b.repayments|
    ensures b.repayments[r].loan < |b.loans| && Out(b.loans[b.repayments[r].loan].status)
  {
    assert RepaymentOk(b.loans, b.repayments[r]);
  }

  lemma RepaymentReversalMoves(b: Books, l: nat, r: nat, view: Visibility, crash: bool)
    requires Usable(b) && !ReverseRepayment(b, l, r, view, crash).1.Refused? && Out(b.loans[l].status)
    ensures var after := ReverseRepayment(b, l, r, view, crash).0;
            && RowMoved(b, after, 1, r) && Tables(b)[1][r].counts
            && (Tables(after)[1][r].counts <==> crash)
            && after.txs == Undo(b.chama, b.txs, Tables(b)[1][r])
  {
    var after := ReverseRepayment(b, l, r, view, crash).0;
    SameLoanEntries(b.chama, b.loans, l, after.loans[l].status);
    OnlyRepaymentRow(b, after, r);
  }

  lemma RequestLands(b: Books, member: nat, amount: int, i: nat, j: nat)
    requires Usable(b)
    ensures Lands(b, DoRequestPayout(member, amount), i, j)
  {
    var after := RequestPayout(b, member, amount).0;
    if after != b {
      OnlyPayoutRow(b, after, |b.payouts|);
      QuietFlight(b, after, 2, |b.payouts|, i, j);
    }
  }

  lemma MovePayoutLands(b: Books, p: nat, to: PayoutStatus, i: nat, j: nat)
    requires Usable(b)
    ensures Lands(b, DoMovePayout(p, to), i, j)
  {
    var (after, outcome) := MovePayout(b, p, to);
    if outcome == Done {
      OnlyPayoutRow(b, after, p);
      QuietFlight(b, after, 2, p, i, j);
    }
  }

  lemma CompleteLands(b: Books, p: nat, i: nat, j: nat)
    requires PostingsOk(b) && Usable(b) && PayoutsOk(b.txs, b.payouts)
    ensures Lands(b, DoComplete(p), i, j)
  {
    var after := CompletePayout(b, p).0;
    if after != b {
      OnlyPayoutRow(b, after, p);
      PairIsBalanced(b.chama, SHARE_CAPITAL, CASH, b.payouts[p].amount);
      PostingFlight(b, after, 2, p, i, j);
    }
  }

  lemma ReversePayoutLands(b: Books, p: nat, crash: bool, i: nat, j: nat)
    requires PostingsOk(b) && Usable(b)
    ensures Lands(b, DoReversePayout(p, crash), i, j)
  {
    var (after, outcome) := ReversePayout(b, p, crash);
    if !outcome.Refused? {
      OnlyPayoutRow(b, after, p);
      ReversalFlight(b, after, 2, p, i, j);
    }
  }

  lemma RecordLands(b: Books, member: nat, amount: int, period: int, i: nat, j: nat)
    requires Usable(b)
    ensures Lands(b, DoRecord(member, amount, period), i, j)
  {
    var after := RecordContribution(b, member, amount, period).0;
    if after != b {
      OnlyContributionRow(b, after, |b.contributions|);
      QuietFlight(b, after, 3, |b.contributions|, i, j);
    }
  }

  lemma SettleLands(b: Books, c: nat, tolerant: bool, i: nat, j: nat)
    requires PostingsOk(b) && Usable(b) && ContributionsOk(b.txs, b.contributions)
    ensures Lands(b, DoSettle(c, tolerant), i, j)
  {
    var after := Settle(b, c, tolerant).0;
    if after != b {
      OnlyContributionRow(b, after, c);
      PairIsBalanced(b.chama, CASH, SHARE_CAPITAL, b.contributions[c].amount);
      PostingFlight(b, after, 3, c, i, j);
    }
  }

  lemma ReverseContributionLands(b: Books, c: nat, i: nat, j: nat)
    requires PostingsOk(b) && Usable(b)
    ensures Lands(b, DoReverseContribution(c), i, j)
  {
    var (after, outcome) := ReverseContribution(b, c);
    if !outcome.Refused? {
      OnlyContributionRow(b, after, c);
      ReversalFlight(b, after, 3, c, i, j);
    }
  }

  lemma FeesLand(b: Books, op: Op, i: nat, j: nat)
    requires Usable(b) && (op.DoOpenFee? || op.DoWaive?)
    ensures Lands(b, op, i, j)
  {
    assert Tables(Perform(b, op).0) == Tables(b);
  }

  lemma PayLands(b: Books, f: nat, i: nat, j: nat)
    requires PostingsOk(b) && Usable(b)
    ensures Lands(b, DoPay(f), i, j)
  {
    var after := PayFee(b, f).0;
    if after != b {
      OnlyFeeRow(b, after, |b.feePayments|);
      PairIsBalanced(b.chama, CASH, REGISTRATION_FEES, b.fees[f].amount);
      PostingFlight(b, after, 4, |b.feePayments|, i, j);
    }
  }

  lemma ReverseFeeLands(b: Books, f: nat, crash: bool, i: nat, j: nat)
    requires PostingsOk(b) && Usable(b)
    ensures Lands(b, DoReverseFee(f, crash), i, j)
  {
    var (after, outcome) := ReverseFee(b, f, crash);
    FeePerformed(b, DoReverseFee(f, crash));
    if !outcome.Refused? {
      var p := ConfirmedPayment(b.feePayments, f).value;
      FeeReversalMoves(b, f, crash);
      ReversalFlight(b, after, 4, p, i, j);
    }
  }

  lemma FeeReversalMoves(b: Books, f: nat, crash: bool)
    requires f < |b.fees| && ConfirmedPayment(b.feePayments, f).Some? && !ReverseFee(b, f, crash).1.Refused?
    ensures var p := ConfirmedPayment(b.feePayments, f).value;
            var after := ReverseFee(b, f, crash).0;
            && RowMoved(b, after, 4, p) && Tables(b)[4][p].counts
            && (Tables(after)[4][p].counts <==> crash)
            && after.txs == Undo(b.chama, b.txs, Tables(b)[4][p])
  {
    OnlyFeeRow(b, ReverseFee(b, f, crash).0, ConfirmedPayment(b.feePayments, f).value);
  }

  /** Only a crashed reversal puts a row in flight, and only a completed one of the same row lands it. */
  lemma EveryOperationLands(b: Books, op: Op, i: nat, j: nat)
    requires Inv(b)
    ensures Lands(b, op, i, j)
  {
    match op {
      case DoApply(member, principal, term, tenured) => ApplyLands(b, member, principal, term, tenured, i, j);
      case DoMoveLoan(loan, to) => MoveLoanLands(b, loan, to, i, j);
      case DoDisburse(loan, today) => DisburseLands(b, loan, today, i, j);
      case DoRepay(loan, amount) => RepayLands(b, loan, amount, i, j);
      case DoReverseRepayment(loan, repayment, view, crash) => ReverseRepaymentLands(b, loan, repayment, view, crash, i, j);
      case DoRequestPayout(member, amount) => RequestLands(b, member, amount, i, j);
      case DoMovePayout(payout, to) => MovePayoutLands(b, payout, to, i, j);
      case DoComplete(payout) => CompleteLands(b, payout, i, j);
      case DoReversePayout(payout, crash) => ReversePayoutLands(b, payout, crash, i, j);
      case DoRecord(member, amount, period) => RecordLands(b, member, amount, period, i, j);
      case DoSettle(contribution, tolerant) => SettleLands(b, contribution, tolerant, i, j);
      case DoReverseContribution(contribution) => ReverseContributionLands(b, contribution, i, j);
      case DoOpenFee(_, _) => FeesLand(b, op, i, j);
      case DoWaive(_) => FeesLand(b, op, i, j);
      case DoPay(fee) => PayLands(b, fee, i, j);
      case DoReverseFee(fee, crash) => ReverseFeeLands(b, fee, crash, i, j);
    }
  }

  // ----- runs -----------------------------------------------------------------------------------

  ghost predicate CrashFree(ops: seq<Op>) {
    forall k :: 0 <= k < |ops| ==> !Crashes(ops[k])
  }

  /** The last request of a run that got to reverse row (i, j) crashed between its commits. */
  ghost predicate LastReversalCrashed(b: Books, ops: seq<Op>, i: nat, j: nat)
    requires Usable(b)
  {
    ops != [] &&
    (var front, last := ops[..|ops| - 1], ops[|ops| - 1];
     var outcome := Perform(Run(b, front), last).1;
     if Undoes(Run(b, front), last) == Some((i, j)) && !outcome.Refused? then outcome == Crashed
     else LastReversalCrashed(b, front, i, j))
  }

  lemma NothingFlies(b: Books, i: nat, j: nat)
    requires Settled(b)
    ensures !Flying(b, i, j)
  {
  }

  /** Over every run of settled books, a row is in flight if and only if its last reversal crashed. */
  lemma {:induction false} InFlightIffLastReversalCrashed(b: Books, ops: seq<Op>, i: nat, j: nat)
    requires Inv(b) && Settled(b)
    ensures Flying(Run(b, ops), i, j) <==> LastReversalCrashed(b, ops, i, j)
  {
    if ops == [] {
      NothingFlies(b, i, j);
    } else {
      var front, last := ops[..|ops| - 1], ops[|ops| - 1];
      InFlightIffLastReversalCrashed(b, front, i, j);
      RunKeeps(b, front, Account(b.chama, CASH));
      EveryOperationLands(Run(b, front), last, i, j);
      FliesOn(b, ops, i, j);
    }
  }

  lemma FliesOn(b: Books, ops: seq<Op>, i: nat, j: nat)
    requires Usable(b) && ops != []
    requires var front, last := ops[..|ops| - 1], ops[|ops| - 1];
             && Lands(Run(b, front), last, i, j)
             && (Flying(Run(b, front), i, j) <==> LastReversalCrashed(b, front, i, j))
    ensures Flying(Run(b, ops), i, j) <==> LastReversalCrashed(b, ops, i, j)
  {
    assert Run(b, ops) == Perform(Run(b, ops[..|ops| - 1]), ops[|ops| - 1]).0;
  }

  lemma CrashesOnlyWhenAsked(b: Books, op: Op)
    requires Usable(b)
    ensures Perform(b, op).1 == Crashed ==> Crashes(op)
  {
  }

  lemma {:induction false} NoCrashNoLastCrash(b: Books, ops: seq<Op>, i: nat, j: nat)
    requires Usable(b) && CrashFree(ops)
    ensures !LastReversalCrashed(b, ops, i, j)
  {
    if ops != [] {
      NoCrashNoLastCrash(b, ops[..|ops| - 1], i, j);
      CrashesOnlyWhenAsked(Run(b, ops[..|ops| - 1]), ops[|ops| - 1]);
    }
  }

  /** A run in which no reversal crashes leaves nothing in flight. */
  lemma CrashFreeRunsSettle(b: Books, ops: seq<Op>)
    requires Inv(b) && Settled(b) && CrashFree(ops)
    ensures Settled(Run(b, ops))
  {
    forall i: nat, j: nat ensures !Flying(Run(b, ops), i, j) {
      InFlightIffLastReversalCrashed(b, ops, i, j);
      NoCrashNoLastCrash(b, ops, i, j);
    }
    AllLanded(Run(b, ops));
  }

  lemma AllLanded(b: Books)
    requires forall i: nat, j: nat :: !Flying(b, i, j)
    ensures Settled(b)
  {
    forall i, j | 0 <= i < |Tables(b)| && 0 <= j < |Tables(b)[i]| ensures !InFlight(b.txs, Tables(b)[i][j]) {
      assert !Flying(b, i, j);
    }
  }

  /** One request that does not crash between its commits leaves settled books settled. */
  lemma UncrashedOperationStaysSettled(b: Books, op: Op)
    requires Inv(b) && Settled(b) && !Crashes(op)
    ensures Settled(Perform(b, op).0)
  {
    CrashesOnlyWhenAsked(b, op);
    forall i: nat, j: nat ensures !Flying(Perform(b, op).0, i, j) {
      EveryOperationLands(b, op, i, j);
      NothingFlies(b, i, j);
    }
    AllLanded(Perform(b, op).0);
  }

  lemma OpenedIsSettled(chama: nat, price: int)
    ensures Settled(Opened(chama, price))
  {
  }

  // ----- reconciliation without exceptions ------------------------------------------------------

  lemma CrashFreeBalance(chama: nat, price: int, ops: seq<Op>, code: nat)
    requires price > 0 && CrashFree(ops)
    ensures var b := RunFromEmpty(chama, price, ops);
            Inv(b) && Balance(b.txs, Account(chama, code)) == Expected(b, code)
  {
    OpenedIsSound(chama, price, Account(chama, code));
    OpenedIsSettled(chama, price);
    RunFromEmptyIsSound(chama, price, ops, Account(chama, code));
    CrashFreeRunsSettle(Opened(chama, price), ops);
    SettledBooksBalance(RunFromEmpty(chama, price, ops), code);
  }

  /**
   Reconciliation over every run from the empty database in which no reversal crashes between its commits: the five
   balances read from the entries equal the figures read from the rows.
   */
  lemma CrashFreeRunsReconcile(chama: nat, price: int, ops: seq<Op>)
    requires price > 0 && CrashFree(ops)
    ensures var b := RunFromEmpty(chama, price, ops);
            var contributions, payouts := Sum(ConfirmedItems(b.contributions)), Sum(CompletedItems(b.payouts));
            && Balance(b.txs, Account(chama, LOANS_RECEIVABLE)) == Sum(OutstandingItems(b.loans, b.repayments))
            && Balance(b.txs, Account(chama, INTEREST_INCOME)) == -Sum(InterestItems(b.repayments))
            && Balance(b.txs, Account(chama, REGISTRATION_FEES)) == -Sum(PaidFeeItems(b.fees))
            && Balance(b.txs, Account(chama, SHARE_CAPITAL)) == payouts - contributions
            && Balance(b.txs, Account(chama, CASH))
               == contributions + Sum(RepaidItems(b.repayments)) + Sum(PaidFeeItems(b.fees))
                  - Sum(DisbursedItems(b.loans)) - payouts
  {
    var b := RunFromEmpty(chama, price, ops);
    CrashFreeBalance(chama, price, ops, LOANS_RECEIVABLE);
    CrashFreeBalance(chama, price, ops, INTEREST_INCOME);
    CrashFreeBalance(chama, price, ops, REGISTRATION_FEES);
    CrashFreeBalance(chama, price, ops, SHARE_CAPITAL);
    CrashFreeBalance(chama, price, ops, CASH);
    OutstandingPrincipalIsUnpaidPrincipal(b);
    PaidFeesAreConfirmedPayments(b);
  }

  // ----- completing what crashed ----------------------------------------------------------------

  /** Trying the reversal of a row again, this time to its end. */
  function Again(b: Books, i: nat, j: nat): Op {
    if i == 1 && j < |b.repayments| then DoReverseRepayment(b.repayments[j].loan, j, Flushed, false)
    else if i == 4 && j < |b.feePayments| then DoReverseFee(b.feePayments[j].fee, false)
    else DoReversePayout(j, false)
  }

  /** Loans and contributions are never in flight; the retry of any other row in flight goes through. */
  lemma AgainLands(b: Books, i: nat, j: nat)
    requires Inv(b) && Flying(b, i, j)
    ensures Undoes(b, Again(b, i, j)) == Some((i, j)) && Perform(b, Again(b, i, j)).1 == Done
    ensures !Flying(Perform(b, Again(b, i, j)).0, i, j)
  {
    AgainIsDone(b, i, j);
    EveryOperationLands(b, Again(b, i, j), i, j);
  }

  lemma AgainIsDone(b: Books, i: nat, j: nat)
    requires LendingOk(b) && b.price > 0 && ContributionsOk(b.txs, b.contributions) && FeesSettled(b) && Flying(b, i, j)
    ensures Undoes(b, Again(b, i, j)) == Some((i, j)) && Perform(b, Again(b, i, j)).1 == Done
  {
    if i == 1 {
      BorrowerIsOut(b, j);
      RepaymentAgain(b, j);
    } else if i == 4 {
      OnlyConfirmed(b.txs, b.fees, b.feePayments, j);
      FeeAgain(b, j);
    } else {
      PayoutAgain(b, i, j);
    }
  }

  lemma RepaymentAgain(b: Books, r: nat)
    requires Usable(b) && Flying(b, 1, r) && b.repayments[r].loan < |b.loans|
    ensures Undoes(b, Again(b, 1, r)) == Some((1, r)) && Perform(b, Again(b, 1, r)).1 == Done
  {
  }

  lemma FeeAgain(b: Books, p: nat)
    requires Usable(b) && Flying(b, 4, p) && b.feePayments[p].fee < |b.fees|
    requires b.fees[b.feePayments[p].fee].status == Paid && ConfirmedPayment(b.feePayments, b.feePayments[p].fee) == Some(p)
    ensures Undoes(b, Again(b, 4, p)) == Some((4, p)) && Perform(b, Again(b, 4, p)).1 == Done
  {
    FeePerformed(b, Again(b, 4, p));
  }

  lemma PayoutAgain(b: Books, i: nat, p: nat)
    requires Usable(b) && LoansOk(b.txs, b.loans) && ContributionsOk(b.txs, b.contributions) && i != 1 && i != 4 && Flying(b, i, p)
    ensures Undoes(b, Again(b, i, p)) == Some((i, p)) && Perform(b, Again(b, i, p)).1 == Done
  {
  }

  lemma OnlyConfirmed(txs: seq<Transaction>, fees: seq<Fee>, payments: seq<FeePayment>, p: nat)
    requires FeesOk(fees, payments) && FeePaymentsOk(txs, fees, payments) && p < |payments| && payments[p].confirmed
    ensures payments[p].fee < |fees| && fees[payments[p].fee].status == Paid && ConfirmedPayment(payments, payments[p].fee) == Some(p)
  {
    var found := ConfirmedPayment(payments, payments[p].fee);
    assert found.Some? && payments[found.value].confirmed && payments[found.value].fee == payments[p].fee;
  }

  /** Retrying the reversal of one row, if it is in flight. */
  ghost function Retry(b: Books, i: nat, j: nat): (end: Books)
    requires Usable(b)
    ensures Usable(end)
  {
    if Flying(b, i, j) then Perform(b, Again(b, i, j)).0 else b
  }

  lemma RetryKeeps(b: Books, i: nat, j: nat)
    requires Inv(b)
    ensures Inv(Retry(b, i, j))
  {
    if Flying(b, i, j) {
      EveryOperationKeeps(b, Again(b, i, j), Account(b.chama, CASH));
    }
  }

  /** A retry lands its own row and no other. */
  lemma RetryLands(b: Books, i: nat, j: nat, x: nat, y: nat)
    requires Inv(b)
    ensures Flying(Retry(b, i, j), x, y) <==> Flying(b, x, y) && !(x == i && y == j)
  {
    if Flying(b, i, j) {
      AgainLands(b, i, j);
      EveryOperationLands(b, Again(b, i, j), x, y);
    }
  }

  /** Retrying the first n rows of table i, one after the other. */
  ghost function RetryRows(b: Books, i: nat, n: nat): (end: Books)
    requires Usable(b)
    ensures Usable(end)
  {
    if n == 0 then b else Retry(RetryRows(b, i, n - 1), i, n - 1)
  }

  /** A property of the state that every next retry keeps holds after all of them. */
  lemma {:induction false} HoldsOn(flag: nat -> bool, n: nat)
    requires flag(0) && forall m: nat :: m < n && flag(m) ==> flag(m + 1)
    ensures flag(n)
  {
    if n > 0 {
      HoldsOn(flag, n - 1);
      assert flag(n - 1 + 1);
    }
  }

  /** Step m keeps the flag, unless it is at the flag's own index. */
  ghost predicate FallsOnlyAt(flag: nat -> bool, mine: bool, y: nat, m: nat) {
    flag(m + 1) == (flag(m) && !(mine && y == m))
  }

  /** A flag that only falls at its own index has fallen once that index is passed. */
  lemma {:induction false} FallsOnce(flag: nat -> bool, mine: bool, y: nat, n: nat)
    requires forall m: nat :: m < n ==> FallsOnlyAt(flag, mine, y, m)
    ensures flag(n) == (flag(0) && !(mine && y < n))
  {
    if n > 0 {
      FallsOnce(flag, mine, y, n - 1);
      assert FallsOnlyAt(flag, mine, y, n - 1);
    }
  }

  ghost function StillSound(b: Books, i: nat): nat -> bool
    requires Usable(b)
  {
    (m: nat) => Inv(RetryRows(b, i, m))
  }

  /** Whether row (x, y) is still in flight after retrying the first m rows of table i. */
  ghost function StillFlying(b: Books, i: nat, x: nat, y: nat): nat -> bool
    requires Usable(b)
  {
    (m: nat) => Flying(RetryRows(b, i, m), x, y)
  }

  lemma NextRowKeeps(b: Books, i: nat, m: nat)
    requires Usable(b) && StillSound(b, i)(m)
    ensures StillSound(b, i)(m + 1)
  {
    RetryKeeps(RetryRows(b, i, m), i, m);
  }

  lemma NextRowLands(b: Books, i: nat, m: nat, x: nat, y: nat)
    requires Usable(b) && StillSound(b, i)(m)
    ensures FallsOnlyAt(StillFlying(b, i, x, y), x == i, y, m)
  {
    RetryLands(RetryRows(b, i, m), i, m, x, y);
  }

  lemma RetryRowsKeep(b: Books, i: nat, n: nat)
    requires Usable(b) && StillSound(b, i)(0)
    ensures StillSound(b, i)(n)
  {
    forall m: nat | m < n && StillSound(b, i)(m) ensures StillSound(b, i)(m + 1) {
      NextRowKeeps(b, i, m);
    }
    HoldsOn(StillSound(b, i), n);
  }

  /** Retrying the first n rows of a table lands those in flight and no other row. */
  lemma RetryRowsLand(b: Books, i: nat, n: nat, x: nat, y: nat)
    requires Usable(b) && StillSound(b, i)(0)
    ensures StillFlying(b, i, x, y)(n) == (StillFlying(b, i, x, y)(0) && !(x == i && y < n))
  {
    var flag, mine := StillFlying(b, i, x, y), x == i;
    forall m: nat | m < n ensures FallsOnlyAt(flag, mine, y, m) {
      RetryRowsKeep(b, i, m);
      NextRowLands(b, i, m, x, y);
    }
    FallsOnce(flag, mine, y, n);
  }

  /** Retrying every row of table i. */
  ghost function RetryTable(b: Books, i: nat): (end: Books)
    requires Usable(b) && i < 5
    ensures Usable(end)
  {
    RetryRows(b, i, |Tables(b)[i]|)
  }

  lemma RetryTableLands(b: Books, i: nat, x: nat, y: nat)
    requires Inv(b) && i < 5
    ensures Inv(RetryTable(b, i)) && (Flying(RetryTable(b, i), x, y) <==> Flying(b, x, y) && x != i)
  {
    var n := |Tables(b)[i]|;
    assert StillSound(b, i)(0) == Inv(b) && StillFlying(b, i, x, y)(0) == Flying(b, x, y);
    RetryRowsKeep(b, i, n);
    RetryRowsLand(b, i, n, x, y);
    assert StillSound(b, i)(n) == Inv(RetryTable(b, i)) && StillFlying(b, i, x, y)(n) == Flying(RetryTable(b, i), x, y);
  }

  /** Retrying every row of the three tables whose reversals have two commits. */
  ghost function RetryAll(b: Books): (end: Books)
    requires Usable(b)
    ensures Usable(end)
  {
    RetryTable(RetryTable(RetryTable(b, 1), 2), 4)
  }

  lemma AllRowsLand(b: Books, x: nat, y: nat)
    requires Inv(b)
    ensures Inv(RetryAll(b)) && (Flying(RetryAll(b), x, y) <==> Flying(b, x, y) && x != 1 && x != 2 && x != 4)
  {
    RetryTableLands(b, 1, x, y);
    RetryTableLands(RetryTable(b, 1), 2, x, y);
    RetryTableLands(RetryTable(RetryTable(b, 1), 2), 4, x, y);
  }

  /** Disbursements and confirmations are never in flight: their status and posting move in one commit. */
  lemma OneCommitNeverFlies(b: Books, x: nat, y: nat)
    requires LoansOk(b.txs, b.loans) && ContributionsOk(b.txs, b.contributions) && Flying(b, x, y)
    ensures x == 1 || x == 2 || x == 4
  {
  }

  lemma RetriedRowLands(b: Books, x: nat, y: nat)
    requires Inv(b)
    ensures !Flying(RetryAll(b), x, y)
  {
    AllRowsLand(b, x, y);
    if Flying(b, x, y) {
      OneCommitNeverFlies(b, x, y);
    }
  }

  /** Whatever crashed before, retrying each reversal that is still in flight settles the books. */
  lemma CompletingCrashedReversalsSettles(b: Books)
    requires Inv(b)
    ensures Settled(RetryAll(b))
  {
    forall x: nat, y: nat ensures !Flying(RetryAll(b), x, y) {
      RetriedRowLands(b, x, y);
    }
    AllLanded(RetryAll(b));
  }
}
