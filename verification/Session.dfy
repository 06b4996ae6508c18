/**
 The database session that the services share: the tables of one Chama and its ledger. A service keeps
 what it has not committed yet in local variables; assigning the tables is the commit.
 */
module Database {
  import opened Wrappers
  import opened Ledger
  import opened LedgerPosting
  import opened Subledger
  import opened Books
  import opened Reconciliation

  class Session {
    const chama: nat
    const price: int
    const ledger: LedgerService
    var loans: seq<Loan>
    var repayments: seq<Repayment>
    var payouts: seq<Payout>
    var contributions: seq<Contribution>
    var shares: seq<Share>
    var fees: seq<Fee>
    var feePayments: seq<FeePayment>

    constructor (chama: nat, price: int)
      requires price > 0
      ensures Valid() && fresh(ledger) && Committed() == Opened(chama, price)
    {
      this.chama, this.price := chama, price;
      ledger := new LedgerService(Chart(chama));
      loans, repayments, payouts, contributions, shares, fees, feePayments := [], [], [], [], [], [], [];
      new;
      OpenedIsSound(chama, price, Account(chama, CASH));
    }

    function Committed(): Books
      reads this, ledger
    {
      Opened(chama, price).(
        txs := ledger.txs, loans := loans, repayments := repayments, payouts := payouts,
        contributions := contributions, shares := shares, fees := fees, feePayments := feePayments)
    }

    ghost predicate Valid()
      reads this, ledger
    {
      ledger.accounts == Chart(chama) && Inv(Committed())
    }

    method AvailableChamaCash() returns (cash: int)
      ensures cash == Cash(Committed())
    {
      cash := Balance(ledger.txs, Account(chama, CASH));
    }

    /** Post what a row owes the ledger. */
    method PostEntry(e: Entry) returns (r: Posted)
      requires ledger.accounts == Chart(chama) && Postable(chama, ledger.txs, e)
      modifies ledger
      ensures r == Success(|old(ledger.txs)|)
      ensures ledger.txs == old(ledger.txs) + [PostingOf(chama, e)]
    {
      CanonicalPostIsStored(chama, ledger.txs, e);
      r := ledger.PostTransaction(Request(chama, e.source, Some(e.memo), RawOf(e.lines), None));
    }

    /** Reverse what a row posted: the first step of every reversal, and a commit of its own. */
    method ReverseEntry(e: Entry)
      requires ledger.accounts == Chart(chama) && OneChama(Chart(chama), chama, ledger.txs)
      requires Agrees(chama, ledger.txs, e) && e.counts
      modifies ledger
      ensures ledger.txs == Undo(chama, old(ledger.txs), e)
    {
      var posting := Find(ledger.txs, e.source);
      if posting.Some? {
        CanonicalReversalIsStored(chama, ledger.txs, e);
        var r := ledger.ReverseTransaction(chama, posting.value, Some(e.undo));
        assert r.Success?;
      }
    }
  }

  ghost predicate Postable(chama: nat, txs: seq<Transaction>, e: Entry) {
    e.source.kind != LedgerReversal && Find(txs, e.source).None? && Balanced(Chart(chama), chama, e.lines)
  }

  /** A balanced entry under a new source passes normalisation, validation and every store check. */
  lemma CanonicalPostIsStored(chama: nat, txs: seq<Transaction>, e: Entry)
    requires Postable(chama, txs, e)
    ensures Post(Chart(chama), txs, Request(chama, e.source, Some(e.memo), RawOf(e.lines), None))
            == (Success(|txs|), txs + [PostingOf(chama, e)])
  {
    WholeCentLinesAreKept(e.lines);
    ValidationIsExact(Chart(chama), chama, e.lines);
  }

  /** Reversing a counted row's posting succeeds: it is stored the first time and recognised afterwards. */
  lemma CanonicalReversalIsStored(chama: nat, txs: seq<Transaction>, e: Entry)
    requires OneChama(Chart(chama), chama, txs) && Agrees(chama, txs, e) && e.counts
    ensures var id := Find(txs, e.source).value;
            var r := Reverse(Chart(chama), txs, chama, id, Some(e.undo));
            r.0.Success? && r.1 == Undo(chama, txs, e)
  {
    var id := Find(txs, e.source).value;
    MirroredIsPrepared(Chart(chama), txs, id, Some(e.undo));
  }

  /** Every row of a table that counts can have its posting reversed. */
  ghost predicate Undoable(chama: nat, txs: seq<Transaction>, entries: seq<Entry>) {
    OneChama(Chart(chama), chama, txs) && forall j :: 0 <= j < |entries| ==> Agrees(chama, txs, entries[j])
  }
}
