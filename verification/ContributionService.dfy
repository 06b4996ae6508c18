/** The contribution service, proved against Books. */
module Contributing {
  import opened Wrappers
  import opened Money
  import opened Ledger
  import opened Subledger
  import opened Spec = Books
  import opened Reconciliation
  import opened Database

  class ContributionService {
    const db: Session

    constructor (db: Session)
      ensures this.db == db
    {
      this.db := db;
    }

    method Record(member: nat, amount: int, period: int) returns (r: Outcome)
      modifies db
      ensures (db.Committed(), r) == RecordContribution(old(db.Committed()), member, amount, period)
    {
      if HasOpen(db.contributions, member, period) {
        return Refused(DuplicatePeriod);
      }
      if amount < 0 {
        return Refused(ConstraintFailed);
      }
      db.contributions := db.contributions + [Contribution(member, amount, period, Pending)];
      return Done;
    }

    /** Manual confirmation and money-in settlement: status, share and posting in one commit. */
    method Settle(c: nat, allowAlreadyConfirmed: bool) returns (r: Outcome)
      requires db.ledger.accounts == Chart(db.chama) && db.price > 0
      requires c < |db.contributions| && db.contributions[c].status == Pending ==>
                 db.contributions[c].amount >= 0 && Find(db.ledger.txs, Source(ContributionConfirmation, c)).None?
      modifies db, db.ledger
      ensures (db.Committed(), r) == Spec.Settle(old(db.Committed()), c, allowAlreadyConfirmed)
    {
      if c >= |db.contributions| {
        return Refused(NotFound);
      }
      var contribution := db.contributions[c];
      if contribution.status == Confirmed {
        if allowAlreadyConfirmed {
          return Done;
        }
        return Refused(WrongState);
      }
      if contribution.status != Pending {
        return Refused(WrongState);
      }
      contribution := contribution.(status := Confirmed);
      var share := Share(contribution.member, c, UnitsFor(contribution.amount, db.price), true);
      var e := ContributionEntry(db.chama, c, contribution);
      ConfirmationPosts(db.chama, db.ledger.txs, c, contribution);
      var posted := db.ledger.PostTransaction(Request(db.chama, e.source, Some(e.memo), RawOf(e.lines), None));
      if posted.Failure? {
        return Refused(ByLedger(posted.error));
      }
      db.contributions := db.contributions[c := contribution];
      db.shares := db.shares + [share];
      return Done;
    }

    method Reverse(c: nat) returns (r: Outcome)
      requires db.ledger.accounts == Chart(db.chama)
      requires Undoable(db.chama, db.ledger.txs, ContributionEntries(db.chama, db.contributions))
      modifies db, db.ledger
      ensures (db.Committed(), r) == ReverseContribution(old(db.Committed()), c)
    {
      if c >= |db.contributions| {
        return Refused(NotFound);
      }
      if db.contributions[c].status != Confirmed {
        return Refused(WrongState);
      }
      var shares := db.shares;
      for i := 0 to |shares|
        invariant |shares| == |db.shares|
        invariant forall j :: 0 <= j < i ==> shares[j] == CancelShares(db.shares, c)[j]
        invariant forall j :: i <= j < |shares| ==> shares[j] == db.shares[j]
      {
        if shares[i].contribution == c {
          shares := shares[i := shares[i].(active := false)];
        }
      }
      assert shares == CancelShares(db.shares, c);
      db.ReverseEntry(ContributionEntries(db.chama, db.contributions)[c]);
      db.contributions := db.contributions[c := db.contributions[c].(status := Reversed)];
      db.shares := shares;
      return Done;
    }
  }

  /** The ledger accepts the confirmation of a positive amount and refuses two empty sides. */
  lemma ConfirmationPosts(chama: nat, txs: seq<Transaction>, c: nat, row: Contribution)
    requires row.status == Confirmed && row.amount >= 0 && Find(txs, Source(ContributionConfirmation, c)).None?
    ensures var e := ContributionEntry(chama, c, row);
            Post(Chart(chama), txs, Request(chama, e.source, Some(e.memo), RawOf(e.lines), None))
            == if row.amount > 0 then (Success(|txs|), txs + [PostingOf(chama, e)]) else (Failure(NotOneSided), txs)
  {
    var e := ContributionEntry(chama, c, row);
    if row.amount > 0 {
      PairIsBalanced(chama, CASH, SHARE_CAPITAL, row.amount);
      CanonicalPostIsStored(chama, txs, e);
    } else {
      WholeCentLinesAreKept(e.lines);
      var first := e.lines[..1];
      assert first[..0] == [] && first[0] == Debit(chama, CASH, 0);
      assert FirstFault(Chart(chama), chama, first) == Some(NotOneSided);
    }
  }
}
