/** What the books promise members and operators: convergence after crashes, safe loans, exact shares. */
module Guarantees {
  import opened Wrappers
  import opened Money
  import opened Calendar
  import opened Ledger
  import opened Tally
  import opened Subledger
  import opened Books
  import opened Reconciliation
  import opened Runs
  import opened Flights

  // ----- exactly one ----------------------------------------------------------------------------

  /** Exactly one stored transaction has this source. */
  ghost predicate PostedOnce(txs: seq<Transaction>, source: Source) {
    Find(txs, source).Some? && forall k :: 0 <= k < |txs| && txs[k].source == source ==> k == Find(txs, source).value
  }

  /** Exactly one stored transaction reverses this one. */
  ghost predicate ReversedOnce(txs: seq<Transaction>, id: nat) {
    PostedOnce(txs, Source(LedgerReversal, id)) &&
    forall k :: 0 <= k < |txs| && txs[k].reverses == Some(id) ==> k == Find(txs, Source(LedgerReversal, id)).value
  }

  /** The posting of this source is stored once and reversed once. */
  ghost predicate UndoneOnce(txs: seq<Transaction>, source: Source) {
    PostedOnce(txs, source) && ReversedOnce(txs, Find(txs, source).value)
  }

  lemma SoundStoresPostOnce(b: Books, source: Source, id: nat)
    requires PostingsOk(b)
    ensures Find(b.txs, source).Some? ==> PostedOnce(b.txs, source)
    ensures HasReversal(b.txs, id) ==> ReversedOnce(b.txs, id)
  {
  }

  /** A contribution that has ever been settled has exactly one confirmation posting and exactly one share. */
  lemma SettledOnce(b: Books, c: nat)
    requires Inv(b) && c < |b.contributions| && b.contributions[c].status != Pending
    ensures PostedOnce(b.txs, Source(ContributionConfirmation, c))
    ensures exists s :: 0 <= s < |b.shares| && b.shares[s].contribution == c
    ensures forall s, t :: 0 <= s < |b.shares| && 0 <= t < |b.shares| && b.shares[s].contribution == c && b.shares[t].contribution == c ==> s == t
  {
  }

  // ----- crash convergence ----------------------------------------------------------------------

  lemma UndoTwice(b: Books, i: nat, j: nat)
    requires PostingsOk(b) && i < |Tables(b)| && j < |Tables(b)[i]| && Tables(b)[i][j].counts
    ensures var e := Tables(b)[i][j];
            var after := Undo(b.chama, b.txs, e);
            && Undo(b.chama, after, e) == after
            && UndoneOnce(after, e.source)
            && after[Find(after, Source(LedgerReversal, Find(after, e.source).value)).value].lines == Mirrored(e.lines)
  {
    var e := Tables(b)[i][j];
    var after := Undo(b.chama, b.txs, e);
    ReversalStep(b, b.(txs := after), i, j, Account(b.chama, CASH));
    assert Agrees(b.chama, b.txs, e);
    assert Agrees(b.chama, after, e);
    SoundStoresPostOnce(b.(txs := after), e.source, Find(after, e.source).value);
  }

  /** Any number of attempts at the same repayment reversal that all crash between the two commits. */
  function CrashedRepaymentReversals(b: Books, l: nat, r: nat, view: Visibility, n: nat): (after: Books)
    requires SoundTerms(b.loans)
    ensures SoundTerms(after.loans)
  {
    if n == 0 then b else ReverseRepayment(CrashedRepaymentReversals(b, l, r, view, n - 1), l, r, view, true).0
  }

  lemma {:induction false} CrashesPostOnce(b: Books, l: nat, r: nat, view: Visibility, n: nat)
    requires SoundTerms(b.loans) && ReverseRepayment(b, l, r, view, false).1 == Done
    requires var e := RepaymentEntry(b.chama, r, b.repayments[r]);
             Undo(b.chama, Undo(b.chama, b.txs, e), e) == Undo(b.chama, b.txs, e)
    ensures CrashedRepaymentReversals(b, l, r, view, n)
            == b.(txs := if n == 0 then b.txs else Undo(b.chama, b.txs, RepaymentEntry(b.chama, r, b.repayments[r])))
  {
    if n > 0 {
      CrashesPostOnce(b, l, r, view, n - 1);
    }
  }

  /** However often it crashed before, a completed reversal ends in the state an undisturbed one reaches. */
  lemma RepaymentReversalConverges(b: Books, l: nat, r: nat, view: Visibility, n: nat)
    requires PostingsOk(b) && SoundTerms(b.loans) && ReverseRepayment(b, l, r, view, false).1 == Done
    ensures var crashed := CrashedRepaymentReversals(b, l, r, view, n);
            var (end, outcome) := ReverseRepayment(crashed, l, r, view, false);
            && (n > 0 ==> crashed == b.(txs := end.txs))
            && (end, outcome) == ReverseRepayment(b, l, r, view, false)
            && !end.repayments[r].confirmed
            && UndoneOnce(end.txs, Source(LoanRepayment, r))
  {
    UndoTwice(b, 1, r);
    RetriesConverge(b, l, r, view, n);
  }

  lemma RetriesConverge(b: Books, l: nat, r: nat, view: Visibility, n: nat)
    requires SoundTerms(b.loans) && ReverseRepayment(b, l, r, view, false).1 == Done
    requires var e := RepaymentEntry(b.chama, r, b.repayments[r]);
             Undo(b.chama, Undo(b.chama, b.txs, e), e) == Undo(b.chama, b.txs, e)
    ensures var crashed := CrashedRepaymentReversals(b, l, r, view, n);
            var (end, outcome) := ReverseRepayment(crashed, l, r, view, false);
            && end.txs == Undo(b.chama, b.txs, RepaymentEntry(b.chama, r, b.repayments[r]))
            && (n > 0 ==> crashed == b.(txs := end.txs))
            && (end, outcome) == ReverseRepayment(b, l, r, view, false)
            && !end.repayments[r].confirmed
  {
    CrashesPostOnce(b, l, r, view, n);
  }

  function CrashedPayoutReversals(b: Books, p: nat, n: nat): Books {
    if n == 0 then b else ReversePayout(CrashedPayoutReversals(b, p, n - 1), p, true).0
  }

  lemma {:induction false} PayoutCrashesPostOnce(b: Books, p: nat, n: nat)
    requires ReversePayout(b, p, false).1 == Done
    requires var e := PayoutEntry(b.chama, p, b.payouts[p]);
             Undo(b.chama, Undo(b.chama, b.txs, e), e) == Undo(b.chama, b.txs, e)
    ensures CrashedPayoutReversals(b, p, n)
            == b.(txs := if n == 0 then b.txs else Undo(b.chama, b.txs, PayoutEntry(b.chama, p, b.payouts[p])))
  {
    if n > 0 {
      PayoutCrashesPostOnce(b, p, n - 1);
    }
  }

  lemma PayoutReversalConverges(b: Books, p: nat, n: nat)
    requires PostingsOk(b) && ReversePayout(b, p, false).1 == Done
    ensures var crashed := CrashedPayoutReversals(b, p, n);
            var (end, outcome) := ReversePayout(crashed, p, false);
            && (n > 0 ==> crashed == b.(txs := end.txs))
            && (end, outcome) == ReversePayout(b, p, false)
            && end.payouts[p].status == PaidBack
            && UndoneOnce(end.txs, Source(PayoutCompletion, p))
  {
    UndoTwice(b, 2, p);
    PayoutCrashesPostOnce(b, p, n);
  }

  function CrashedFeeReversals(b: Books, f: nat, n: nat): Books {
    if n == 0 then b else ReverseFee(CrashedFeeReversals(b, f, n - 1), f, true).0
  }

  lemma {:induction false} FeeCrashesPostOnce(b: Books, f: nat, n: nat)
    requires ReverseFee(b, f, false).1 == Done
    requires var p := ConfirmedPayment(b.feePayments, f).value;
             var e := FeeEntry(b.chama, p, b.feePayments[p]);
             Undo(b.chama, Undo(b.chama, b.txs, e), e) == Undo(b.chama, b.txs, e)
    ensures var p := ConfirmedPayment(b.feePayments, f).value;
            CrashedFeeReversals(b, f, n)
            == b.(txs := if n == 0 then b.txs else Undo(b.chama, b.txs, FeeEntry(b.chama, p, b.feePayments[p])))
  {
    if n > 0 {
      FeeCrashesPostOnce(b, f, n - 1);
    }
  }

  lemma FeeReversalConverges(b: Books, f: nat, n: nat)
    requires PostingsOk(b) && ReverseFee(b, f, false).1 == Done
    ensures var p := ConfirmedPayment(b.feePayments, f).value;
            var crashed := CrashedFeeReversals(b, f, n);
            var (end, outcome) := ReverseFee(crashed, f, false);
            && (n > 0 ==> crashed == b.(txs := end.txs))
            && (end, outcome) == ReverseFee(b, f, false)
            && end.fees[f].status == Owed && !end.feePayments[p].confirmed
            && UndoneOnce(end.txs, Source(RegistrationFeePayment, p))
  {
    UndoTwice(b, 4, ConfirmedPayment(b.feePayments, f).value);
    FeeCrashesPostOnce(b, f, n);
  }

  // ----- the status of a loan is a function of its confirmed repayments --------------------------

  ghost predicate StatusTrue(b: Books)
    requires SoundTerms(b.loans)
  {
    forall l :: 0 <= l < |b.loans| && Out(b.loans[l].status) ==>
      b.loans[l].status == StatusGiven(b.loans[l], l, b.repayments)
  }

  predicate Flushes(op: Op) {
    op.DoReverseRepayment? ==> op.view == Flushed
  }

  lemma RecordRepaymentStatus(b: Books, l: nat, amount: int)
    requires SoundTerms(b.loans) && StatusTrue(b)
    ensures SoundTerms(RecordRepayment(b, l, amount).0.loans) && StatusTrue(RecordRepayment(b, l, amount).0)
  {
    var after := RecordRepayment(b, l, amount).0;
    if after != b {
      forall x | 0 <= x < |b.loans| && Out(after.loans[x].status)
        ensures after.loans[x].status == StatusGiven(after.loans[x], x, after.repayments)
      {
        PaidAfterPush(b.repayments, after.repayments[|b.repayments|], x);
      }
    }
  }

  /** A loan whose status is recomputed from the rows is true; loans without a changed repayment stay true. */
  lemma ReversedRowsStatus(loans: seq<Loan>, rows: seq<Repayment>, l: nat, r: nat, x: nat)
    requires SoundTerms(loans) && l < |loans| && x < |loans| && r < |rows| && rows[r].loan == l && rows[r].confirmed
    requires x != l ==> loans[x].status == StatusGiven(loans[x], x, rows)
    ensures var after := rows[r := rows[r].(confirmed := false)];
            var status := if x == l then StatusGiven(loans[l], l, after) else loans[x].status;
            status == StatusGiven(loans[x].(status := status), x, after)
  {
    PaidAfterReversal(rows, r, x);
  }

  lemma ReverseRepaymentStatus(b: Books, l: nat, r: nat, crash: bool)
    requires LendingOk(b) && StatusTrue(b)
    ensures var after := ReverseRepayment(b, l, r, Flushed, crash).0;
            SoundTerms(after.loans) && StatusTrue(after)
  {
    if ReverseRepayment(b, l, r, Flushed, crash).1 == Done {
      assert RepaymentOk(b.loans, b.repayments[r]);
      ReversedStatuses(b.loans, b.repayments, l, r);
    }
  }

  lemma ReversedStatuses(loans: seq<Loan>, rows: seq<Repayment>, l: nat, r: nat)
    requires SoundTerms(loans) && l < |loans| && r < |rows| && rows[r].loan == l && rows[r].confirmed
    requires Out(loans[l].status)
    requires forall x :: 0 <= x < |loans| && Out(loans[x].status) ==> loans[x].status == StatusGiven(loans[x], x, rows)
    ensures var after := rows[r := rows[r].(confirmed := false)];
            var later := loans[l := loans[l].(status := StatusGiven(loans[l], l, after))];
            forall x :: 0 <= x < |later| && Out(later[x].status) ==> later[x].status == StatusGiven(later[x], x, after)
  {
    var after := rows[r := rows[r].(confirmed := false)];
    var later := loans[l := loans[l].(status := StatusGiven(loans[l], l, after))];
    forall x | 0 <= x < |later| && Out(later[x].status)
      ensures later[x].status == StatusGiven(later[x], x, after)
    {
      ReversedRowsStatus(loans, rows, l, r, x);
    }
  }

  lemma DisburseStatus(b: Books, l: nat, today: Date)
    requires LendingOk(b) && StatusTrue(b)
    ensures SoundTerms(Disburse(b, l, today).0.loans) && StatusTrue(Disburse(b, l, today).0)
  {
    if l < |b.loans| && !Out(b.loans[l].status) {
      UnknownLoanIsUnpaid(b, l);
    }
  }

  lemma ApplicationsKeepStatus(b: Books, member: nat, principal: int, term: int, tenured: bool)
    requires LendingOk(b) && b.price > 0 && StatusTrue(b)
    ensures var after := ApplyForLoan(b, member, principal, term, tenured).0; SoundTerms(after.loans) && StatusTrue(after)
  {
  }

  lemma MovesKeepStatus(b: Books, l: nat, to: LoanStatus)
    requires LendingOk(b) && StatusTrue(b)
    ensures var after := MoveLoan(b, l, to).0; SoundTerms(after.loans) && StatusTrue(after)
  {
  }

  lemma OthersLeaveLoans(b: Books, op: Op)
    requires Usable(b) && !Lends(op)
    ensures Perform(b, op).0.loans == b.loans && Perform(b, op).0.repayments == b.repayments
  {
  }

  lemma FlushedOperationKeepsStatus(b: Books, op: Op)
    requires LendingOk(b) && b.price > 0 && StatusTrue(b) && Flushes(op)
    ensures SoundTerms(Perform(b, op).0.loans) && StatusTrue(Perform(b, op).0)
  {
    match op {
      case DoDisburse(loan, today) => DisburseStatus(b, loan, today);
      case DoRepay(loan, amount) => RecordRepaymentStatus(b, loan, amount);
      case DoReverseRepayment(loan, repayment, view, crash) => ReverseRepaymentStatus(b, loan, repayment, crash);
      case DoApply(member, principal, term, tenured) => ApplicationsKeepStatus(b, member, principal, term, tenured);
      case DoMoveLoan(loan, to) => MovesKeepStatus(b, loan, to);
      case _ => OthersLeaveLoans(b, op);
    }
  }

  /** When queries see flushed statuses, every run keeps each loan's status true to its confirmed repayments. */
  lemma {:induction false} FlushedRunsKeepStatus(b: Books, ops: seq<Op>)
    requires Inv(b) && StatusTrue(b) && forall i :: 0 <= i < |ops| ==> Flushes(ops[i])
    ensures StatusTrue(Run(b, ops))
  {
    if ops != [] {
      FlushedRunsKeepStatus(b, ops[..|ops| - 1]);
      RunKeeps(b, ops[..|ops| - 1], Account(b.chama, CASH));
      FlushedOperationKeepsStatus(Run(b, ops[..|ops| - 1]), ops[|ops| - 1]);
    }
  }

  /** With every repayment of a loan reversed, in whatever order, the loan is DISBURSED and owes everything again. */
  lemma AllReversedRestoresTheLoan(b: Books, l: nat)
    requires LendingOk(b) && StatusTrue(b) && l < |b.loans| && Out(b.loans[l].status)
    requires forall r :: 0 <= r < |b.repayments| && b.repayments[r].loan == l ==> !b.repayments[r].confirmed
    ensures b.loans[l].status == Disbursed
    ensures PaidPrincipal(b.repayments, l) == 0 && PaidInterest(b.repayments, l) == 0
  {
    InAbsentGroup(PrincipalItems(b.repayments), l);
    InAbsentGroup(InterestItems(b.repayments), l);
  }

  /** Another confirmed repayment of the same loan. */
  ghost predicate HasOther(rows: seq<Repayment>, r: nat)
    requires r < |rows|
  {
    exists s :: 0 <= s < |rows| && s != r && rows[s].loan == rows[r].loan && rows[s].confirmed
  }

  lemma PaidByOthers(loans: seq<Loan>, rows: seq<Repayment>, r: nat)
    requires forall s :: 0 <= s < |rows| ==> RepaymentOk(loans, rows[s])
    requires r < |rows| && rows[r].confirmed
    ensures var rest := rows[r := rows[r].(confirmed := false)];
            var l := rows[r].loan;
            && PaidPrincipal(rest, l) >= 0 && PaidInterest(rest, l) >= 0
            && (HasOther(rows, r) <==> PaidPrincipal(rest, l) + PaidInterest(rest, l) > 0)
  {
    var l := rows[r].loan;
    var rest := rows[r := rows[r].(confirmed := false)];
    forall s | 0 <= s < |rest| ensures PrincipalItems(rest)[s].value >= 0 && InterestItems(rest)[s].value >= 0 {
      assert RepaymentOk(loans, rows[s]);
    }
    InBounds(PrincipalItems(rest), l);
    InBounds(InterestItems(rest), l);
    if HasOther(rows, r) {
      var s :| 0 <= s < |rows| && s != r && rows[s].loan == l && rows[s].confirmed;
      assert RepaymentOk(loans, rows[s]);
      assert PrincipalItems(rest)[s].value + InterestItems(rest)[s].value > 0;
    } else {
      InAbsentGroup(PrincipalItems(rest), l);
      InAbsentGroup(InterestItems(rest), l);
    }
  }

  /**
   The production session does not flush before it queries. The status written by a reversal is then
   right if and only if the loan still owed something and another repayment remains confirmed.
   */
  lemma StaleStatusIsRightIff(b: Books, r: nat)
    requires Reversible(b, r)
    ensures var l := b.repayments[r].loan;
            var after := ReverseRepayment(b, l, r, Stale, false).0;
            var owed := b.loans[l].principal - PaidPrincipal(b.repayments, l) + Interest(b.loans[l]) - PaidInterest(b.repayments, l);
            after.loans[l].status == StatusGiven(b.loans[l], l, after.repayments)
            <==> owed > 0 && HasOther(b.repayments, r)
  {
    PaidByOthers(b.loans, b.repayments, r);
    PaidAfterReversal(b.repayments, r, b.repayments[r].loan);
  }

  /** A confirmed repayment among sound ones: what sound books say about a repayment that can be reversed. */
  ghost predicate Reversible(b: Books, r: nat) {
    && SoundTerms(b.loans) && r < |b.repayments| && b.repayments[r].confirmed
    && (forall s :: 0 <= s < |b.repayments| ==> RepaymentOk(b.loans, b.repayments[s]))
    && LoanSafe(b.loans, b.repayments)
  }

  /** A loan that was fully repaid stays REPAID after a stale reversal, owes money and accepts no repayment. */
  lemma StaleReversalStrandsARepaidLoan(b: Books, r: nat, amount: int)
    requires Reversible(b, r)
    requires StatusGiven(b.loans[b.repayments[r].loan], b.repayments[r].loan, b.repayments) == Repaid
    ensures var l := b.repayments[r].loan;
            var after := ReverseRepayment(b, l, r, Stale, false).0;
            && SoundTerms(after.loans)
            && after.loans[l].status == Repaid
            && PaidPrincipal(after.repayments, l) + PaidInterest(after.repayments, l) < b.loans[l].principal + Interest(b.loans[l])
            && RecordRepayment(after, l, amount) == (after, Refused(WrongState))
  {
    PaidAfterReversal(b.repayments, r, b.repayments[r].loan);
  }

  // ----- path independence of repayments --------------------------------------------------------

  function Repay(b: Books, l: nat, amounts: seq<int>): (after: Books)
    requires SoundTerms(b.loans)
    ensures SoundTerms(after.loans)
  {
    if amounts == [] then b else RecordRepayment(Repay(b, l, amounts[..|amounts| - 1]), l, amounts[|amounts| - 1]).0
  }

  predicate AllAccepted(b: Books, l: nat, amounts: seq<int>)
    requires SoundTerms(b.loans)
  {
    amounts == [] ||
    (var n := |amounts| - 1;
     AllAccepted(b, l, amounts[..n]) && RecordRepayment(Repay(b, l, amounts[..n]), l, amounts[n]).1 == Done)
  }

  function StillOwed(b: Books, l: nat): int
    requires SoundTerms(b.loans) && l < |b.loans|
  {
    b.loans[l].principal - PaidPrincipal(b.repayments, l) + Interest(b.loans[l]) - PaidInterest(b.repayments, l)
  }

  predicate Positive(amounts: seq<int>) {
    amounts == [] || (Positive(amounts[..|amounts| - 1]) && amounts[|amounts| - 1] > 0)
  }

  lemma {:induction false} TotalOfPositives(amounts: seq<int>)
    requires Positive(amounts)
    ensures Total(amounts) >= 0 && (amounts != [] ==> Total(amounts) > 0)
  {
    if amounts != [] {
      TotalOfPositives(amounts[..|amounts| - 1]);
    }
  }

  /** All that the split of repayments relies on: true of every state of a run whose queries see flushed statuses. */
  ghost predicate Accounted(b: Books) {
    SoundTerms(b.loans) && LoanSafe(b.loans, b.repayments) && StatusTrue(b)
  }

  /** After repayments of this total, interest first, the paid portions of loan l have moved by the split. */
  ghost predicate PaidTowards(b: Books, after: Books, l: nat, total: int)
    requires SoundTerms(b.loans) && l < |b.loans|
  {
    var interest := InterestPart(total, Interest(b.loans[l]) - PaidInterest(b.repayments, l));
    && |after.loans| == |b.loans|
    && after.loans[l] == b.loans[l].(status := after.loans[l].status) && Out(after.loans[l].status)
    && PaidInterest(after.repayments, l) == PaidInterest(b.repayments, l) + interest
    && PaidPrincipal(after.repayments, l) == PaidPrincipal(b.repayments, l) + total - interest
  }

  /**
   Only the total matters: any split of T into accepted repayments pays min(T, interest owed) of the
   interest and the rest of the principal, and a split is accepted in full exactly when T is owed.
   */
  lemma {:induction false} RepaymentsArePathIndependent(b: Books, l: nat, amounts: seq<int>)
    requires Accounted(b) && l < |b.loans| && Out(b.loans[l].status) && Positive(amounts)
    ensures AllAccepted(b, l, amounts) <==> Total(amounts) <= StillOwed(b, l)
    ensures AllAccepted(b, l, amounts) ==>
              Accounted(Repay(b, l, amounts)) && PaidTowards(b, Repay(b, l, amounts), l, Total(amounts))
  {
    if amounts != [] {
      var n := |amounts| - 1;
      var front := amounts[..n];
      RepaymentsArePathIndependent(b, l, front);
      TotalOfPositives(front);
      if AllAccepted(b, l, front) {
        var mid := Repay(b, l, front);
        OneMoreRepayment(mid, l, amounts[n]);
        PaymentsCompose(b, mid, RecordRepayment(mid, l, amounts[n]), l, Total(front), amounts[n]);
      }
    }
  }

  lemma PaymentsCompose(b: Books, mid: Books, end: (Books, Outcome), l: nat, total: int, amount: int)
    requires SoundTerms(b.loans) && SoundTerms(mid.loans) && l < |b.loans| && total >= 0 && amount > 0
    requires PaidInterest(b.repayments, l) <= Interest(b.loans[l])
    requires PaidTowards(b, mid, l, total)
    requires end.1 == Done <==> amount <= StillOwed(mid, l)
    requires end.1 == Done ==> PaidTowards(mid, end.0, l, amount)
    ensures end.1 == Done <==> total + amount <= StillOwed(b, l)
    ensures end.1 == Done ==> PaidTowards(b, end.0, l, total + amount)
  {
  }

  /** Interest first: right after a repayment, interest is cleared or no principal was taken. */
  lemma OneMoreRepayment(b: Books, l: nat, amount: int)
    requires Accounted(b) && l < |b.loans| && Out(b.loans[l].status) && amount > 0
    ensures var (after, outcome) := RecordRepayment(b, l, amount);
            && (outcome == Done <==> amount <= StillOwed(b, l))
            && (outcome == Done ==>
                  && Accounted(after) && PaidTowards(b, after, l, amount)
                  && (PaidInterest(after.repayments, l) == Interest(b.loans[l])
                      || PaidPrincipal(after.repayments, l) == PaidPrincipal(b.repayments, l)))
  {
    var (after, outcome) := RecordRepayment(b, l, amount);
    if outcome == Done {
      var row := after.repayments[|b.repayments|];
      RecordRepaymentStatus(b, l, amount);
      RecordedIsSafe(b.loans, b.repayments, row, after.loans[l].status);
      PaidAfterPush(b.repayments, row, l);
    }
  }

  // ----- shares ---------------------------------------------------------------------------------

  /** The confirmed contributions of a member, in order. */
  function ConfirmedAmounts(rows: seq<Contribution>, member: nat): seq<int> {
    if rows == [] then []
    else
      var last := rows[|rows| - 1];
      ConfirmedAmounts(rows[..|rows| - 1], member)
      + if last.member == member && last.status == Confirmed then [last.amount] else []
  }

  lemma {:induction false} UnitsOfConfirmed(rows: seq<Contribution>, price: int, member: nat)
    requires price > 0
    ensures ConfirmedUnits(rows, price, member) == UnitsBought(ConfirmedAmounts(rows, member), price)
    ensures In(ConfirmedItems(rows), member) == Total(ConfirmedAmounts(rows, member))
  {
    if rows != [] {
      var front, last := rows[..|rows| - 1], rows[|rows| - 1];
      UnitsOfConfirmed(front, price, member);
      assert ConfirmedUnitItems(rows, price)[..|rows| - 1] == ConfirmedUnitItems(front, price);
      assert ConfirmedItems(rows)[..|rows| - 1] == ConfirmedItems(front);
      var amounts := ConfirmedAmounts(front, member);
      assert (amounts + [last.amount])[..|amounts|] == amounts;
      assert ConfirmedAmounts(rows, member) == if last.member == member && last.status == Confirmed then amounts + [last.amount] else amounts;
    }
  }

  /** Share value follows confirmed contributions: exactly at the default price, within the rounding slack at any. */
  lemma MemberShareValueFollowsContributions(b: Books, member: nat)
    requires Inv(b)
    ensures var amounts := ConfirmedAmounts(b.contributions, member);
            var slack := Slack(|amounts|, StepPrice(b.price)) + 0.5;
            && -slack <= MemberShareValue(b, member) as real - Total(amounts) as real <= slack
            && (b.price == DEFAULT_PRICE ==> MemberShareValue(b, member) == Total(amounts))
  {
    UnitsOfConfirmed(b.contributions, b.price, member);
    assert ActiveUnits(b.shares, member) == ConfirmedUnits(b.contributions, b.price, member);
    ShareValueError(ConfirmedAmounts(b.contributions, member), b.price);
    ShareValueExactAtDefaultPrice(ConfirmedAmounts(b.contributions, member));
  }

  function AvailableOver(b: Books, members: seq<nat>): int
    requires b.price > 0
  {
    if members == [] then 0
    else AvailableOver(b, members[..|members| - 1]) + AvailableShareValue(b, members[|members| - 1])
  }

  lemma {:induction false} AvailableByMember(b: Books, members: seq<nat>)
    requires Inv(b) && b.price == DEFAULT_PRICE
    ensures AvailableOver(b, members) == Over(ConfirmedItems(b.contributions), members) - Over(CompletedItems(b.payouts), members)
  {
    if members != [] {
      var m := members[|members| - 1];
      AvailableByMember(b, members[..|members| - 1]);
      MemberShareValueFollowsContributions(b, m);
      UnitsOfConfirmed(b.contributions, b.price, m);
    }
  }

  /** All rows are of these members. */
  ghost predicate Covers(members: seq<nat>, b: Books) {
    && (forall c :: 0 <= c < |b.contributions| ==> b.contributions[c].member in members)
    && (forall p :: 0 <= p < |b.payouts| ==> b.payouts[p].member in members)
  }

  /**
   At the default price the members' available share value adds up to what Share Capital holds: to the cent when
   no reversal is in flight, and up to the postings in flight otherwise.
   */
  lemma AvailableSharesAreShareCapital(b: Books, members: seq<nat>)
    requires Inv(b) && Reconciled(b, Account(b.chama, SHARE_CAPITAL)) && b.price == DEFAULT_PRICE
    requires Distinct(members) && Covers(members, b)
    ensures AvailableOver(b, members) == -(Balance(b.txs, Account(b.chama, SHARE_CAPITAL)) + InTransit(b, SHARE_CAPITAL))
    ensures Settled(b) ==> AvailableOver(b, members) == -Balance(b.txs, Account(b.chama, SHARE_CAPITAL))
  {
    AvailableByMember(b, members);
    GroupsAddUp(ConfirmedItems(b.contributions), members);
    GroupsAddUp(CompletedItems(b.payouts), members);
    SoundBooksReconcile(b, SHARE_CAPITAL);
    if Settled(b) {
      NothingInTransit(b.txs, Tables(b), Account(b.chama, SHARE_CAPITAL));
    }
  }

  /** So it does after every run from the empty database in which no reversal crashes between its commits. */
  lemma CrashFreeSharesAreShareCapital(chama: nat, ops: seq<Op>, members: seq<nat>)
    requires CrashFree(ops) && Distinct(members) && Covers(members, RunFromEmpty(chama, DEFAULT_PRICE, ops))
    ensures var b := RunFromEmpty(chama, DEFAULT_PRICE, ops);
            b.price == DEFAULT_PRICE && AvailableOver(b, members) == -Balance(b.txs, Account(chama, SHARE_CAPITAL))
  {
    RunFromEmptyIsSound(chama, DEFAULT_PRICE, ops, Account(chama, SHARE_CAPITAL));
    OpenedIsSound(chama, DEFAULT_PRICE, Account(chama, SHARE_CAPITAL));
    OpenedIsSettled(chama, DEFAULT_PRICE);
    CrashFreeRunsSettle(Opened(chama, DEFAULT_PRICE), ops);
    AvailableSharesAreShareCapital(RunFromEmpty(chama, DEFAULT_PRICE, ops), members);
  }
}
