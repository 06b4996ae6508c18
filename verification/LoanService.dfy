/** The loan service: its methods read the session, decide, post and commit, proved against Books. */
module Lending {
  import opened Wrappers
  import opened Money
  import opened Calendar
  import opened Ledger
  import opened Subledger
  import opened Spec = Books
  import opened Reconciliation
  import opened Database

  class LoanService {
    const db: Session

    constructor (db: Session)
      ensures this.db == db
    {
      this.db := db;
    }

    method Apply(member: nat, principal: int, term: int, tenured: bool) returns (r: Outcome)
      requires db.price > 0
      modifies db
      ensures (db.Committed(), r) == ApplyForLoan(old(db.Committed()), member, principal, term, tenured)
    {
      if !tenured {
        return Refused(NotYetTenured);
      }
      var shareValue := MemberShareValue(db.Committed(), member);
      if principal > shareValue * 3 {
        return Refused(AboveShareLimit);
      }
      var cash := db.AvailableChamaCash();
      if principal > cash {
        return Refused(AboveCash);
      }
      if principal <= 0 || !(3 <= term <= 12) {
        return Refused(ConstraintFailed);
      }
      db.loans := db.loans + [Loan(member, principal, LOAN_RATE, term, Draft, None, None)];
      return Done;
    }

    /** The pending row after a transition, or none when the row's status does not allow it. */
    method Transition(loan: Loan, allowedFrom: set<LoanStatus>, to: LoanStatus) returns (pending: Option<Loan>)
      ensures pending == if loan.status in allowedFrom then Some(loan.(status := to)) else None
    {
      if loan.status !in allowedFrom {
        return None;
      }
      return Some(loan.(status := to));
    }

    /** Submit, approve, reject and cancel: the moves that post nothing. */
    method Move(l: nat, to: LoanStatus) returns (r: Outcome)
      modifies db
      ensures (db.Committed(), r) == MoveLoan(old(db.Committed()), l, to)
    {
      if l >= |db.loans| {
        return Refused(NotFound);
      }
      var allowedFrom := match to
        case Submitted => {Draft}
        case Approved => {Submitted}
        case Rejected => {Submitted}
        case Cancelled => {Approved}
        case _ => {};
      var pending := Transition(db.loans[l], allowedFrom, to);
      if pending.None? {
        return Refused(WrongState);
      }
      db.loans := db.loans[l := pending.value];
      return Done;
    }

    method Disburse(l: nat, today: Date) returns (r: Outcome)
      requires db.ledger.accounts == Chart(db.chama) && SoundTerms(db.loans) && LoansOk(db.ledger.txs, db.loans)
      modifies db, db.ledger
      ensures (db.Committed(), r) == Spec.Disburse(old(db.Committed()), l, today)
    {
      if l >= |db.loans| {
        return Refused(NotFound);
      }
      var loan := db.loans[l];
      if loan.status == Disbursed {
        assert Find(db.ledger.txs, Source(LoanDisbursement, l)).Some?;
        return Done;
      }
      var pending := Transition(loan, {Approved}, Disbursed);
      if pending.None? {
        return Refused(WrongState);
      }
      var cash := db.AvailableChamaCash();
      if loan.principal > cash {
        return Refused(AboveCash);
      }
      var out := pending.value.(disbursedOn := Some(today));
      out := out.(maturesOn := Some(AddMonths(today, out.term)));
      PairIsBalanced(db.chama, LOANS_RECEIVABLE, CASH, out.principal);
      var posted := db.PostEntry(LoanEntry(db.chama, l, out));
      db.loans := db.loans[l := out];
      return Done;
    }

    method OutstandingFor(l: nat) returns (principal: int, interest: int)
      requires l < |db.loans| && SoundTerms(db.loans)
      ensures principal == db.loans[l].principal - PaidPrincipal(db.repayments, l)
      ensures interest == Interest(db.loans[l]) - PaidInterest(db.repayments, l)
    {
      var paidPrincipal, paidInterest := 0, 0;
      for i := 0 to |db.repayments|
        invariant paidPrincipal == PaidPrincipal(db.repayments[..i], l)
        invariant paidInterest == PaidInterest(db.repayments[..i], l)
      {
        var repayment := db.repayments[i];
        assert db.repayments[..i + 1] == db.repayments[..i] + [repayment];
        PaidAfterPush(db.repayments[..i], repayment, l);
        if repayment.loan == l && repayment.confirmed {
          paidPrincipal := paidPrincipal + repayment.principalPortion;
          paidInterest := paidInterest + repayment.interestPortion;
        }
      }
      assert db.repayments[..|db.repayments|] == db.repayments;
      principal := db.loans[l].principal - paidPrincipal;
      interest := Interest(db.loans[l]) - paidInterest;
    }

    /** Cash in, against the principal and interest portions that are not zero. */
    method PostRepayment(row: Repayment)
      requires db.ledger.accounts == Chart(db.chama)
      requires Find(db.ledger.txs, Source(LoanRepayment, |db.repayments|)).None?
      requires row.amount > 0 && row.principalPortion >= 0 && row.interestPortion >= 0 && row.confirmed
      requires row.principalPortion + row.interestPortion == row.amount
      modifies db.ledger
      ensures db.ledger.txs == old(db.ledger.txs) + [PostingOf(db.chama, RepaymentEntry(db.chama, |db.repayments|, row))]
    {
      var lines := [Debit(db.chama, CASH, row.amount)];
      if row.principalPortion > 0 {
        lines := lines + [Credit(db.chama, LOANS_RECEIVABLE, row.principalPortion)];
      }
      if row.interestPortion > 0 {
        lines := lines + [Credit(db.chama, INTEREST_INCOME, row.interestPortion)];
      }
      assert lines == RepaymentLines(db.chama, row.amount, row.principalPortion, row.interestPortion);
      RepaymentIsBalanced(db.chama, row.amount, row.principalPortion, row.interestPortion);
      var posted := db.PostEntry(
        Entry(Source(LoanRepayment, |db.repayments|), Memo(ForRepayment, row.loan), Memo(ForRepaymentReversal, row.loan), lines, true));
    }

    method RecordRepayment(l: nat, amount: int) returns (r: Outcome)
      requires db.ledger.accounts == Chart(db.chama) && SoundTerms(db.loans) && LoanSafe(db.loans, db.repayments)
      requires Find(db.ledger.txs, Source(LoanRepayment, |db.repayments|)).None?
      modifies db, db.ledger
      ensures (db.Committed(), r) == Spec.RecordRepayment(old(db.Committed()), l, amount)
    {
      if l >= |db.loans| {
        return Refused(NotFound);
      }
      var loan := db.loans[l];
      if loan.status !in {Disbursed, PartiallyRepaid} {
        return Refused(WrongState);
      }
      var owedPrincipal, owedInterest := OutstandingFor(l);
      if amount > owedPrincipal + owedInterest {
        return Refused(AboveOutstanding);
      }
      if amount <= 0 {
        return Refused(ConstraintFailed);
      }
      var interestPortion := if amount < owedInterest then amount else owedInterest;
      var principalPortion := amount - interestPortion;
      var row := Repayment(l, amount, principalPortion, interestPortion, true);
      var status := StatusFromOutstanding(loan, owedPrincipal - principalPortion, owedInterest - interestPortion);

      PostRepayment(row);
      db.loans := db.loans[l := loan.(status := status)];
      db.repayments := db.repayments + [row];
      return Done;
    }

    /** What the status query sees: the rows as flushed, with or without the pending status. */
    method StatusAfterReversal(l: nat, visible: seq<Repayment>) returns (status: LoanStatus)
      requires l < |db.loans| && SoundTerms(db.loans)
      ensures status == StatusGiven(db.loans[l], l, visible)
    {
      var paidPrincipal := PaidPrincipal(visible, l);
      var paidInterest := PaidInterest(visible, l);
      var loan := db.loans[l];
      return StatusFromOutstanding(loan, loan.principal - paidPrincipal, Interest(loan) - paidInterest);
    }

    method ReverseRepayment(l: nat, r: nat, view: Visibility, crash: bool) returns (end: Outcome)
      requires db.ledger.accounts == Chart(db.chama) && SoundTerms(db.loans)
      requires Undoable(db.chama, db.ledger.txs, RepaymentEntries(db.chama, db.repayments))
      modifies db, db.ledger
      ensures (db.Committed(), end) == Spec.ReverseRepayment(old(db.Committed()), l, r, view, crash)
    {
      if l >= |db.loans| || r >= |db.repayments| || db.repayments[r].loan != l {
        return Refused(NotFound);
      }
      if !db.repayments[r].confirmed {
        return Refused(WrongState);
      }
      db.ReverseEntry(RepaymentEntries(db.chama, db.repayments)[r]);
      if crash {
        return Crashed;
      }
      var pending := db.repayments[r := db.repayments[r].(confirmed := false)];
      var status := StatusAfterReversal(l, if view == Flushed then pending else db.repayments);
      db.repayments := pending;
      db.loans := db.loans[l := db.loans[l].(status := status)];
      return Done;
    }
  }
}
