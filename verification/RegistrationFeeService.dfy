/** The registration-fee service, proved against Books. */
module Registering {
  import opened Wrappers
  import opened Ledger
  import opened Subledger
  import opened Spec = Books
  import opened Reconciliation
  import opened Database

  class RegistrationFeeService {
    const db: Session

    constructor (db: Session)
      ensures this.db == db
    {
      this.db := db;
    }

    method Open(member: nat, amount: int) returns (r: Outcome)
      modifies db
      ensures (db.Committed(), r) == OpenFee(old(db.Committed()), member, amount)
    {
      if amount < 0 || exists f :: 0 <= f < |db.fees| && db.fees[f].member == member {
        return Refused(ConstraintFailed);
      }
      db.fees := db.fees + [Fee(member, amount, Owed)];
      return Done;
    }

    method Waive(f: nat) returns (r: Outcome)
      modifies db
      ensures (db.Committed(), r) == WaiveFee(old(db.Committed()), f)
    {
      if f >= |db.fees| {
        return Refused(NotFound);
      }
      if db.fees[f].status != Owed {
        return Refused(WrongState);
      }
      db.fees := db.fees[f := db.fees[f].(status := Waived)];
      return Done;
    }

    method Pay(f: nat) returns (r: Outcome)
      requires db.ledger.accounts == Chart(db.chama)
      requires Find(db.ledger.txs, Source(RegistrationFeePayment, |db.feePayments|)).None?
      modifies db, db.ledger
      ensures (db.Committed(), r) == PayFee(old(db.Committed()), f)
    {
      if f >= |db.fees| {
        return Refused(NotFound);
      }
      var fee := db.fees[f];
      if fee.status == Paid {
        return Done;
      }
      if fee.status != Owed {
        return Refused(WrongState);
      }
      if fee.amount <= 0 {
        return Refused(ConstraintFailed);
      }
      var payment := FeePayment(f, fee.amount, true);
      PairIsBalanced(db.chama, CASH, REGISTRATION_FEES, fee.amount);
      var posted := db.PostEntry(FeeEntry(db.chama, |db.feePayments|, payment));
      db.fees := db.fees[f := fee.(status := Paid)];
      db.feePayments := db.feePayments + [payment];
      return Done;
    }

    method ReversePayment(f: nat, crash: bool) returns (r: Outcome)
      requires db.ledger.accounts == Chart(db.chama)
      requires Undoable(db.chama, db.ledger.txs, FeeEntries(db.chama, db.feePayments))
      modifies db, db.ledger
      ensures (db.Committed(), r) == ReverseFee(old(db.Committed()), f, crash)
    {
      if f >= |db.fees| {
        return Refused(NotFound);
      }
      if db.fees[f].status != Paid {
        return Refused(WrongState);
      }
      var payment := ConfirmedPayment(db.feePayments, f);
      if payment.None? {
        return Refused(WrongState);
      }
      var p := payment.value;
      db.ReverseEntry(FeeEntries(db.chama, db.feePayments)[p]);
      if crash {
        return Crashed;
      }
      db.feePayments := db.feePayments[p := db.feePayments[p].(confirmed := false)];
      db.fees := db.fees[f := db.fees[f].(status := Owed)];
      return Done;
    }
  }
}
