/** The payout service, proved against Books. */
module PayingOut {
  import opened Wrappers
  import opened Ledger
  import opened Tally
  import opened Subledger
  import opened Spec = Books
  import opened Reconciliation
  import opened Database

  class PayoutService {
    const db: Session

    constructor (db: Session)
      ensures this.db == db
    {
      this.db := db;
    }

    method Request(member: nat, amount: int) returns (r: Outcome)
      requires db.price > 0
      modifies db
      ensures (db.Committed(), r) == RequestPayout(old(db.Committed()), member, amount)
    {
      var available := MemberShareValue(db.Committed(), member) - CompletedTotal(db.payouts, member);
      if amount > available {
        return Refused(AboveShareValue);
      }
      var cash := db.AvailableChamaCash();
      if amount > cash {
        return Refused(AboveCash);
      }
      if amount <= 0 {
        return Refused(ConstraintFailed);
      }
      db.payouts := db.payouts + [Payout(member, amount, Requested)];
      return Done;
    }

    /** The pending row after a transition, or none when the row's status does not allow it. */
    method Transition(
        payout: Payout, allowedFrom: set<PayoutStatus>, to: PayoutStatus) returns (pending: Option<Payout>)
      ensures pending == if payout.status in allowedFrom then Some(payout.(status := to)) else None
    {
      if payout.status !in allowedFrom {
        return None;
      }
      return Some(payout.(status := to));
    }

    /** Approve, reject, process and fail: the moves that post nothing. */
    method Move(p: nat, to: PayoutStatus) returns (r: Outcome)
      modifies db
      ensures (db.Committed(), r) == MovePayout(old(db.Committed()), p, to)
    {
      if p >= |db.payouts| {
        return Refused(NotFound);
      }
      var allowedFrom := match to
        case Granted => {Requested}
        case Declined => {Requested}
        case Processing => {Granted}
        case Failed => {Processing}
        case _ => {};
      var pending := Transition(db.payouts[p], allowedFrom, to);
      if pending.None? {
        return Refused(WrongState);
      }
      db.payouts := db.payouts[p := pending.value];
      return Done;
    }

    method Complete(p: nat) returns (r: Outcome)
      requires db.ledger.accounts == Chart(db.chama) && PayoutsOk(db.ledger.txs, db.payouts)
      modifies db, db.ledger
      ensures (db.Committed(), r) == CompletePayout(old(db.Committed()), p)
    {
      if p >= |db.payouts| {
        return Refused(NotFound);
      }
      var payout := db.payouts[p];
      if payout.status == Completed {
        assert Find(db.ledger.txs, Source(PayoutCompletion, p)).Some?;
        return Done;
      }
      var pending := Transition(payout, {Processing}, Completed);
      if pending.None? {
        return Refused(WrongState);
      }
      var cash := db.AvailableChamaCash();
      if payout.amount > cash {
        return Refused(AboveCash);
      }
      PairIsBalanced(db.chama, SHARE_CAPITAL, CASH, payout.amount);
      var posted := db.PostEntry(PayoutEntry(db.chama, p, pending.value));
      db.payouts := db.payouts[p := pending.value];
      return Done;
    }

    method Reverse(p: nat, crash: bool) returns (r: Outcome)
      requires db.ledger.accounts == Chart(db.chama)
      requires Undoable(db.chama, db.ledger.txs, PayoutEntries(db.chama, db.payouts))
      modifies db, db.ledger
      ensures (db.Committed(), r) == ReversePayout(old(db.Committed()), p, crash)
    {
      if p >= |db.payouts| {
        return Refused(NotFound);
      }
      if db.payouts[p].status != Completed {
        return Refused(WrongState);
      }
      db.ReverseEntry(PayoutEntries(db.chama, db.payouts)[p]);
      if crash {
        return Crashed;
      }
      db.payouts := db.payouts[p := db.payouts[p].(status := PaidBack)];
      return Done;
    }
  }
}
