/**
 The services on one session, request after request. A valid session stays valid, and every sequence of
 requests leaves the state that the run of operations on the books leaves, so what is proved about
 runs holds of the services.
 */
module Services {
  import opened Wrappers
  import opened Ledger
  import opened Subledger
  import opened Spec = Books
  import opened Reconciliation
  import opened Runs
  import opened Database
  import opened Lending
  import opened PayingOut
  import opened Contributing
  import opened Registering

  /** What the services rely on, table by table. */
  ghost predicate Ready(b: Spec.Books) {
    && Usable(b) && LoansOk(b.txs, b.loans) && LoanSafe(b.loans, b.repayments)
    && PayoutsOk(b.txs, b.payouts) && ContributionsOk(b.txs, b.contributions)
    && Find(b.txs, Source(LoanRepayment, |b.repayments|)).None?
    && Find(b.txs, Source(RegistrationFeePayment, |b.feePayments|)).None?
    && Undoable(b.chama, b.txs, RepaymentEntries(b.chama, b.repayments))
    && Undoable(b.chama, b.txs, PayoutEntries(b.chama, b.payouts))
    && Undoable(b.chama, b.txs, ContributionEntries(b.chama, b.contributions))
    && Undoable(b.chama, b.txs, FeeEntries(b.chama, b.feePayments))
  }

  lemma SoundBooksAreReady(b: Spec.Books)
    requires Inv(b)
    ensures Ready(b)
  {
    PostedTablesAreReady(b);
  }

  lemma PostedTablesAreReady(b: Spec.Books)
    requires PostingsOk(b)
    ensures Find(b.txs, Source(LoanRepayment, |b.repayments|)).None?
    ensures Find(b.txs, Source(RegistrationFeePayment, |b.feePayments|)).None?
    ensures forall i :: 0 <= i < |KINDS| ==> Undoable(b.chama, b.txs, Tables(b)[i])
    ensures Undoable(b.chama, b.txs, RepaymentEntries(b.chama, b.repayments))
    ensures Undoable(b.chama, b.txs, PayoutEntries(b.chama, b.payouts))
    ensures Undoable(b.chama, b.txs, ContributionEntries(b.chama, b.contributions))
    ensures Undoable(b.chama, b.txs, FeeEntries(b.chama, b.feePayments))
  {
    NewRowIsUnposted(Chart(b.chama), b.chama, b.txs, KINDS, Tables(b), 1);
    NewRowIsUnposted(Chart(b.chama), b.chama, b.txs, KINDS, Tables(b), 4);
    forall i | 0 <= i < |KINDS| ensures Undoable(b.chama, b.txs, Tables(b)[i]) {
      assert forall j :: 0 <= j < |Tables(b)[i]| ==> Agrees(b.chama, b.txs, Tables(b)[i][j]);
    }
    assert Undoable(b.chama, b.txs, Tables(b)[1]) && Undoable(b.chama, b.txs, Tables(b)[2]);
    assert Undoable(b.chama, b.txs, Tables(b)[3]) && Undoable(b.chama, b.txs, Tables(b)[4]);
  }

  class Desk {
    const db: Session
    const loans: LoanService
    const payouts: PayoutService
    const contributions: ContributionService
    const fees: RegistrationFeeService

    constructor (db: Session)
      ensures this.db == db && Wired()
    {
      this.db := db;
      loans := new LoanService(db);
      payouts := new PayoutService(db);
      contributions := new ContributionService(db);
      fees := new RegistrationFeeService(db);
    }

    predicate Wired() {
      loans.db == db && payouts.db == db && contributions.db == db && fees.db == db
    }

    method ServeLending(op: Op) returns (r: Outcome)
      requires Lends(op) && Wired() && db.ledger.accounts == Chart(db.chama) && Ready(db.Committed())
      modifies db, db.ledger
      ensures (db.Committed(), r) == Perform(old(db.Committed()), op)
    {
      match op {
        case DoApply(member, principal, term, tenured) => r := loans.Apply(member, principal, term, tenured);
        case DoMoveLoan(loan, to) => r := loans.Move(loan, to);
        case DoDisburse(loan, today) => r := loans.Disburse(loan, today);
        case DoRepay(loan, amount) => r := loans.RecordRepayment(loan, amount);
        case DoReverseRepayment(loan, repayment, view, crash) => r := loans.ReverseRepayment(loan, repayment, view, crash);
      }
    }

    method ServeFees(op: Op) returns (r: Outcome)
      requires ChargesFees(op) && Wired() && db.ledger.accounts == Chart(db.chama) && Ready(db.Committed())
      modifies db, db.ledger
      ensures (db.Committed(), r) == Perform(old(db.Committed()), op)
    {
      match op {
        case DoOpenFee(member, amount) => r := fees.Open(member, amount);
        case DoWaive(fee) => r := fees.Waive(fee);
        case DoPay(fee) => r := fees.Pay(fee);
        case DoReverseFee(fee, crash) => r := fees.ReversePayment(fee, crash);
      }
    }

    method ServeSaving(op: Op) returns (r: Outcome)
      requires !Lends(op) && !ChargesFees(op) && Wired() && db.ledger.accounts == Chart(db.chama)
      requires Ready(db.Committed())
      modifies db, db.ledger
      ensures (db.Committed(), r) == Perform(old(db.Committed()), op)
    {
      match op {
        case DoRequestPayout(member, amount) => r := payouts.Request(member, amount);
        case DoMovePayout(payout, to) => r := payouts.Move(payout, to);
        case DoComplete(payout) => r := payouts.Complete(payout);
        case DoReversePayout(payout, crash) => r := payouts.Reverse(payout, crash);
        case DoRecord(member, amount, period) => r := contributions.Record(member, amount, period);
        case DoSettle(contribution, tolerant) => r := contributions.Settle(contribution, tolerant);
        case DoReverseContribution(contribution) => r := contributions.Reverse(contribution);
      }
    }

    /** One request, handed to the service that answers it. */
    method Serve(op: Op) returns (r: Outcome)
      requires Wired() && db.ledger.accounts == Chart(db.chama) && Ready(db.Committed())
      modifies db, db.ledger
      ensures (db.Committed(), r) == Perform(old(db.Committed()), op)
    {
      if Lends(op) {
        r := ServeLending(op);
      } else if ChargesFees(op) {
        r := ServeFees(op);
      } else {
        r := ServeSaving(op);
      }
    }

    method ServeSoundly(op: Op) returns (r: Outcome)
      requires Wired() && db.Valid()
      modifies db, db.ledger
      ensures db.Valid() && (db.Committed(), r) == Perform(old(db.Committed()), op)
    {
      RequestKeeps(db.Committed(), op);
      r := Serve(op);
    }

    /** Any number of requests, one after the other. */
    method ServeAll(ops: seq<Op>)
      requires Wired() && db.Valid()
      modifies db, db.ledger
      ensures db.Valid() && db.Committed() == Run(old(db.Committed()), ops)
      decreases |ops|
    {
      if ops != [] {
        ServeAll(ops[..|ops| - 1]);
        var r := ServeSoundly(ops[|ops| - 1]);
      }
    }
  }

  lemma RequestKeeps(b: Spec.Books, op: Op)
    requires Inv(b)
    ensures Ready(b) && Inv(Perform(b, op).0)
  {
    SoundBooksAreReady(b);
    EveryOperationKeeps(b, op, Account(b.chama, CASH));
  }
}
