/**
 The join behind the monthly analytics: which stored entries count as money collected in a category, for one
 member or for the whole group, and what they add up to over the life of the ledger.
 */
module CashFlows {
  import opened Wrappers
  import opened Ledger
  import opened Tally
  import opened Calendar
  import opened Subledger
  import opened Books
  import opened Reconciliation
  import opened Runs

  /** One query: the category's source type, the member of each row of its table, and whose money is wanted. */
  datatype Query = Query(chama: nat, kind: SourceType, owners: seq<nat>, scope: Option<nat>)

  /** The cash effect of one entry, on the day its transaction was stored. */
  datatype Flow = Flow(at: Date, amount: int)

  /** The outer join to the transaction that this one reverses. */
  function Original(txs: seq<Transaction>, t: Transaction): Option<Transaction> {
    if t.reverses.Some? && t.reverses.value < |txs| then Some(txs[t.reverses.value]) else None
  }

  /** The row that a transaction is about: a reversal is about the row of its original. */
  function RowOf(txs: seq<Transaction>, t: Transaction): Option<nat> {
    if t.source.kind != LedgerReversal then Some(t.source.id)
    else
      match Original(txs, t)
      case None => None
      case Some(original) => Some(original.source.id)
  }

  predicate OfKind(txs: seq<Transaction>, t: Transaction, kind: SourceType) {
    || t.source.kind == kind
    || (t.source.kind == LedgerReversal && Original(txs, t).Some? && Original(txs, t).value.source.kind == kind)
  }

  predicate InScope(q: Query, row: Option<nat>) {
    q.scope.Some? ==> row.Some? && row.value < |q.owners| && q.owners[row.value] == q.scope.value
  }

  predicate Wanted(q: Query, txs: seq<Transaction>, t: Transaction) {
    t.chama == q.chama && OfKind(txs, t, q.kind) && InScope(q, RowOf(txs, t))
  }

  /** One joined row per entry on the Cash account. */
  function CashRows(lines: seq<Line>, cash: Account, at: Date): seq<Flow> {
    if lines == [] then []
    else
      var last := lines[|lines| - 1];
      CashRows(lines[..|lines| - 1], cash, at) + if last.account == cash then [Flow(at, last.debit - last.credit)] else []
  }

  /** The joined rows of the first n transactions. */
  function Joined(q: Query, txs: seq<Transaction>, at: seq<Date>, n: nat): seq<Flow>
    requires n <= |txs| == |at|
  {
    if n == 0 then []
    else
      Joined(q, txs, at, n - 1)
      + if Wanted(q, txs, txs[n - 1]) then CashRows(txs[n - 1].lines, Account(q.chama, CASH), at[n - 1]) else []
  }

  predicate Between(d: Date, start: Date, end: Date) {
    !Before(d, start) && Before(d, end)
  }

  function FlowsWithin(flows: seq<Flow>, start: Date, end: Date): int {
    if flows == [] then 0
    else
      var last := flows[|flows| - 1];
      FlowsWithin(flows[..|flows| - 1], start, end) + if Between(last.at, start, end) then last.amount else 0
  }

  /** What one transaction does to the Cash account, if the query wants it. */
  function CashEffect(q: Query, txs: seq<Transaction>, t: Transaction): int {
    if Wanted(q, txs, t) then Net(t.lines, Account(q.chama, CASH)) else 0
  }

  /** Transaction by transaction, what the first n of them brought in during a window. */
  function CollectedWithin(q: Query, txs: seq<Transaction>, at: seq<Date>, n: nat, start: Date, end: Date): int
    requires n <= |txs| == |at|
  {
    if n == 0 then 0
    else
      CollectedWithin(q, txs, at, n - 1, start, end)
      + if Between(at[n - 1], start, end) then CashEffect(q, txs, txs[n - 1]) else 0
  }

  lemma {:induction false} FlowsAddUp(xs: seq<Flow>, ys: seq<Flow>, start: Date, end: Date)
    ensures FlowsWithin(xs + ys, start, end) == FlowsWithin(xs, start, end) + FlowsWithin(ys, start, end)
  {
    if ys == [] {
      assert xs + ys == xs;
    } else {
      assert (xs + ys)[..|xs + ys| - 1] == xs + ys[..|ys| - 1];
      FlowsAddUp(xs, ys[..|ys| - 1], start, end);
    }
  }

  lemma {:induction false} CashRowsNet(lines: seq<Line>, cash: Account, at: Date, start: Date, end: Date)
    ensures FlowsWithin(CashRows(lines, cash, at), start, end) == if Between(at, start, end) then Net(lines, cash) else 0
  {
    if lines != [] {
      var last := lines[|lines| - 1];
      var front := CashRows(lines[..|lines| - 1], cash, at);
      CashRowsNet(lines[..|lines| - 1], cash, at, start, end);
      if last.account == cash {
        assert (front + [Flow(at, last.debit - last.credit)])[..|front|] == front;
      } else {
        assert front + [] == front;
      }
    }
  }

  /** The joined rows of a window add up to the cash effects of the transactions stored in it. */
  lemma {:induction false} JoinedAddUp(q: Query, txs: seq<Transaction>, at: seq<Date>, n: nat, start: Date, end: Date)
    requires n <= |txs| == |at|
    ensures FlowsWithin(Joined(q, txs, at, n), start, end) == CollectedWithin(q, txs, at, n, start, end)
  {
    if n > 0 {
      JoinedAddUp(q, txs, at, n - 1, start, end);
      var rows := if Wanted(q, txs, txs[n - 1]) then CashRows(txs[n - 1].lines, Account(q.chama, CASH), at[n - 1]) else [];
      FlowsAddUp(Joined(q, txs, at, n - 1), rows, start, end);
      CashRowsNet(txs[n - 1].lines, Account(q.chama, CASH), at[n - 1], start, end);
    }
  }

  // ----- over the life of the ledger ------------------------------------------------------------

  /** What the first n transactions brought in. */
  function CollectedEver(q: Query, txs: seq<Transaction>, n: nat): int
    requires n <= |txs|
  {
    if n == 0 then 0 else CollectedEver(q, txs, n - 1) + CashEffect(q, txs, txs[n - 1])
  }

  /** Every reversal has the mirrored lines of its original. */
  ghost predicate ReversalsMirror(txs: seq<Transaction>) {
    forall k :: 0 <= k < |txs| && txs[k].reverses.Some? ==>
      txs[k].reverses.value < |txs| && txs[k].lines == Mirrored(txs[txs[k].reverses.value].lines)
  }

  lemma StoredReversalsMirror(b: Books)
    requires PostingsOk(b)
    ensures ReversalsMirror(b.txs)
  {
    forall k | 0 <= k < |b.txs| && b.txs[k].reverses.Some?
      ensures b.txs[k].reverses.value < |b.txs| && b.txs[k].lines == Mirrored(b.txs[b.txs[k].reverses.value].lines)
    {
      assert SoundTransaction(Chart(b.chama), b.txs, k);
      var id := b.txs[k].reverses.value;
      var i :| 0 <= i < |KINDS| && b.txs[id].source.kind == KINDS[i] && b.txs[id].source.id < |Tables(b)[i]|;
      assert Agrees(b.chama, b.txs, Tables(b)[i][b.txs[id].source.id]);
      assert Find(b.txs, b.txs[id].source) == Some(id) && Find(b.txs, Source(LedgerReversal, id)) == Some(k);
    }
  }

  /** Transaction p is of the category and in scope, and none of the first n transactions reverses it. */
  predicate Live(q: Query, txs: seq<Transaction>, n: nat, p: nat)
    requires p < n <= |txs|
  {
    txs[p].source.kind == q.kind && InScope(q, Some(txs[p].source.id)) && Find(txs[..n], Source(LedgerReversal, p)).None?
  }

  function LiveItems(q: Query, txs: seq<Transaction>, n: nat): (items: seq<Item<nat>>)
    requires n <= |txs|
    ensures |items| == n
  {
    seq(n, p requires 0 <= p < n =>
      Item(txs[p].source.id, if Live(q, txs, n, p) then Net(txs[p].lines, Account(q.chama, CASH)) else 0))
  }

  lemma LiveAfterOneMore(q: Query, accounts: set<Account>, txs: seq<Transaction>, n: nat, p: nat)
    requires OneChama(accounts, q.chama, txs) && p < n < |txs|
    ensures Live(q, txs, n + 1, p) <==> Live(q, txs, n, p) && txs[n].reverses != Some(p)
  {
    ReversalsAreMarked(accounts, txs);
    assert txs[..n + 1] == txs[..n] + [txs[n]];
    FindAfterAppend(txs[..n], txs[n], Source(LedgerReversal, p));
  }

  lemma NewestIsLive(q: Query, accounts: set<Account>, txs: seq<Transaction>, n: nat)
    requires OneChama(accounts, q.chama, txs) && n < |txs|
    ensures Live(q, txs, n + 1, n) <==> txs[n].source.kind == q.kind && InScope(q, Some(txs[n].source.id))
  {
    ReversalsAreMarked(accounts, txs);
  }

  /** A reversal takes back exactly what its original brought in, in the month it is stored. */
  lemma ReversalTakesBack(q: Query, accounts: set<Account>, txs: seq<Transaction>, n: nat)
    requires OneChama(accounts, q.chama, txs) && ReversalsMirror(txs) && q.kind != LedgerReversal
    requires n < |txs| && txs[n].reverses.Some?
    ensures txs[n].reverses.value < n
    ensures CashEffect(q, txs, txs[n]) == -LiveItems(q, txs, n)[txs[n].reverses.value].value
  {
    var id := txs[n].reverses.value;
    ReversalsAreMarked(accounts, txs);
    assert txs[n].source == Source(LedgerReversal, id);
    MirroredNetsToZero(txs[id].lines, Account(q.chama, CASH));
    assert Find(txs[..n], Source(LedgerReversal, id)).None?;
  }

  /** Everything collected so far is what the transactions that nobody has reversed brought in. */
  lemma {:induction false} OnlyLiveCollect(q: Query, accounts: set<Account>, txs: seq<Transaction>, n: nat)
    requires OneChama(accounts, q.chama, txs) && ReversalsMirror(txs) && q.kind != LedgerReversal && n <= |txs|
    ensures CollectedEver(q, txs, n) == Sum(LiveItems(q, txs, n))
  {
    if n > 0 {
      var m := n - 1;
      OnlyLiveCollect(q, accounts, txs, m);
      LiveItemsMove(q, accounts, txs, m);
    }
  }

  lemma LiveItemsMove(q: Query, accounts: set<Account>, txs: seq<Transaction>, m: nat)
    requires OneChama(accounts, q.chama, txs) && ReversalsMirror(txs) && q.kind != LedgerReversal && m < |txs|
    ensures Sum(LiveItems(q, txs, m + 1)) == Sum(LiveItems(q, txs, m)) + CashEffect(q, txs, txs[m])
  {
    var before, after := LiveItems(q, txs, m), LiveItems(q, txs, m + 1);
    var moved := if txs[m].reverses.Some? then txs[m].reverses.value else m;
    forall p | 0 <= p < m
      ensures after[p].value == if txs[m].reverses == Some(p) then 0 else before[p].value
    {
      LiveAfterOneMore(q, accounts, txs, m, p);
    }
    SumExceptAt(before, after[..m], moved);
    NewestIsLive(q, accounts, txs, m);
    ReversalsAreMarked(accounts, txs);
    if txs[m].reverses.Some? {
      ReversalTakesBack(q, accounts, txs, m);
    }
  }

  // ----- row by row -----------------------------------------------------------------------------

  /** What each row of a table has in the ledger's Cash account, if it is in scope. */
  function RowItems(q: Query, txs: seq<Transaction>, table: seq<Entry>): (items: seq<Item<nat>>)
    ensures |items| == |table|
  {
    seq(|table|, j requires 0 <= j < |table| =>
      Item(j, if InScope(q, Some(j)) then StandingNet(txs, table[j], Account(q.chama, CASH)) else 0))
  }

  lemma {:induction false} OverIds(items: seq<Item<nat>>, rows: seq<Item<nat>>)
    requires forall j :: 0 <= j < |rows| ==> In(items, j) == rows[j].value
    ensures Over(items, Ids(|rows|)) == Sum(rows)
  {
    if rows != [] {
      OverIds(items, rows[..|rows| - 1]);
      assert Ids(|rows|)[..|rows| - 1] == Ids(|rows| - 1);
    }
  }

  lemma LiveRow(q: Query, b: Books, i: nat, j: nat)
    requires PostingsOk(b) && q.chama == b.chama && i < 5 && q.kind == KINDS[i] && j < |Tables(b)[i]|
    ensures In(LiveItems(q, b.txs, |b.txs|), j) == RowItems(q, b.txs, Tables(b)[i])[j].value
  {
    var items := LiveItems(q, b.txs, |b.txs|);
    var e := Tables(b)[i][j];
    assert b.txs[..|b.txs|] == b.txs;
    assert e.source == Source(KINDS[i], j) && Agrees(b.chama, b.txs, e);
    var found := Find(b.txs, e.source);
    if found.Some? {
      InSingle(items, j, found.value);
    } else {
      InAbsentGroup(items, j);
    }
  }

  /** Over the life of the ledger the query collects what the standing postings of the category's rows hold in Cash. */
  lemma RowsAreCollected(q: Query, b: Books, i: nat)
    requires PostingsOk(b) && q.chama == b.chama && i < 5 && q.kind == KINDS[i]
    ensures CollectedEver(q, b.txs, |b.txs|) == Sum(RowItems(q, b.txs, Tables(b)[i]))
  {
    var items, rows := LiveItems(q, b.txs, |b.txs|), RowItems(q, b.txs, Tables(b)[i]);
    StoredReversalsMirror(b);
    OnlyLiveCollect(q, Chart(b.chama), b.txs, |b.txs|);
    forall j | 0 <= j < |rows| ensures In(items, j) == rows[j].value {
      LiveRow(q, b, i, j);
    }
    OverIds(items, rows);
    forall p | 0 <= p < |items| && items[p].value != 0 ensures items[p].group in Ids(|rows|) {
      LiveIsARow(q, b, i, p);
      assert Ids(|rows|)[items[p].group] == items[p].group;
    }
    GroupsAddUp(items, Ids(|rows|));
  }

  lemma LiveIsARow(q: Query, b: Books, i: nat, p: nat)
    requires PostingsOk(b) && i < 5 && q.kind == KINDS[i] && p < |b.txs| && Live(q, b.txs, |b.txs|, p)
    ensures b.txs[p].source.id < |Tables(b)[i]|
  {
    ReversalsAreMarked(Chart(b.chama), b.txs);
    var x :| 0 <= x < |KINDS| && b.txs[p].source.kind == KINDS[x] && b.txs[p].source.id < |Tables(b)[x]|;
    assert KINDS[x] == KINDS[i];
  }

  // ----- contributions and registration fees ------------------------------------------------------

  function ContributionsOf(b: Books, scope: Option<nat>): Query {
    Query(b.chama, ContributionConfirmation,
          seq(|b.contributions|, c requires 0 <= c < |b.contributions| => b.contributions[c].member), scope)
  }

  /** The figure of a scope: all of it, or one member's. */
  function Scoped(items: seq<Item<nat>>, scope: Option<nat>): int {
    if scope.None? then Sum(items) else In(items, scope.value)
  }

  /** Rows whose standing postings hold an item's value each, in scope when its group is. */
  lemma ScopedRows(q: Query, rows: seq<Item<nat>>, items: seq<Item<nat>>)
    requires |rows| == |items| == |q.owners|
    requires forall j :: 0 <= j < |rows| ==>
               items[j].group == q.owners[j] && rows[j].value == if InScope(q, Some(j)) then items[j].value else 0
    ensures Sum(rows) == Scoped(items, q.scope)
  {
    if q.scope.None? {
      ScaledSum(rows, items, 1);
    } else {
      SumOfGroup(rows, items, q.scope.value);
    }
  }

  lemma ContributionRow(b: Books, scope: Option<nat>, c: nat)
    requires PostingsOk(b) && ContributionsOk(b.txs, b.contributions) && c < |b.contributions|
    ensures var q := ContributionsOf(b, scope);
            RowItems(q, b.txs, ContributionEntries(b.chama, b.contributions))[c].value
            == if InScope(q, Some(c)) then ConfirmedItems(b.contributions)[c].value else 0
  {
    var e := Tables(b)[3][c];
    assert Agrees(b.chama, b.txs, e);
    NetOfPair(Debit(b.chama, CASH, b.contributions[c].amount), Credit(b.chama, SHARE_CAPITAL, b.contributions[c].amount),
              Account(b.chama, CASH));
  }

  /** The analytics of contributions agree with the sub-ledger: over the life of the ledger, what is confirmed now. */
  lemma CollectedContributionsAreConfirmed(b: Books, scope: Option<nat>)
    requires PostingsOk(b) && ContributionsOk(b.txs, b.contributions)
    ensures CollectedEver(ContributionsOf(b, scope), b.txs, |b.txs|) == Scoped(ConfirmedItems(b.contributions), scope)
  {
    var q := ContributionsOf(b, scope);
    RowsAreCollected(q, b, 3);
    forall c | 0 <= c < |b.contributions|
      ensures RowItems(q, b.txs, Tables(b)[3])[c].value == if InScope(q, Some(c)) then ConfirmedItems(b.contributions)[c].value else 0
    {
      ContributionRow(b, scope, c);
    }
    ScopedRows(q, RowItems(q, b.txs, Tables(b)[3]), ConfirmedItems(b.contributions));
  }

  /** The member whose fee a payment pays. */
  function FeeMember(fees: seq<Fee>, p: FeePayment): nat {
    if p.fee < |fees| then fees[p.fee].member else 0
  }

  function FeesOf(b: Books, scope: Option<nat>): Query {
    Query(b.chama, RegistrationFeePayment,
          seq(|b.feePayments|, p requires 0 <= p < |b.feePayments| => FeeMember(b.fees, b.feePayments[p])), scope)
  }

  /** The confirmed fee payments by member. */
  function PaymentItems(fees: seq<Fee>, payments: seq<FeePayment>): (items: seq<Item<nat>>)
    ensures |items| == |payments|
  {
    seq(|payments|, p requires 0 <= p < |payments| =>
      Item(FeeMember(fees, payments[p]), if payments[p].confirmed then payments[p].amount else 0))
  }

  lemma FeeRow(b: Books, scope: Option<nat>, p: nat)
    requires PostingsOk(b) && Settled(b) && p < |b.feePayments|
    ensures var q := FeesOf(b, scope);
            RowItems(q, b.txs, FeeEntries(b.chama, b.feePayments))[p].value
            == if InScope(q, Some(p)) then PaymentItems(b.fees, b.feePayments)[p].value else 0
  {
    var e := Tables(b)[4][p];
    assert Agrees(b.chama, b.txs, e) && !InFlight(b.txs, e);
    NetOfPair(Debit(b.chama, CASH, b.feePayments[p].amount), Credit(b.chama, REGISTRATION_FEES, b.feePayments[p].amount),
              Account(b.chama, CASH));
  }

  /** So do the analytics of registration fees, once no reversal is in flight. */
  lemma CollectedFeesAreConfirmed(b: Books, scope: Option<nat>)
    requires Inv(b) && Settled(b)
    ensures CollectedEver(FeesOf(b, scope), b.txs, |b.txs|) == Scoped(PaymentItems(b.fees, b.feePayments), scope)
    ensures CollectedEver(FeesOf(b, None), b.txs, |b.txs|) == Sum(PaidFeeItems(b.fees))
  {
    FeesCollected(b, scope);
    FeesCollected(b, None);
    ScaledSum(PaymentItems(b.fees, b.feePayments), FeePaidItems(b.feePayments), 1);
    PaidFeesAreConfirmedPayments(b);
  }

  lemma FeesCollected(b: Books, scope: Option<nat>)
    requires PostingsOk(b) && Settled(b)
    ensures CollectedEver(FeesOf(b, scope), b.txs, |b.txs|) == Scoped(PaymentItems(b.fees, b.feePayments), scope)
  {
    var q := FeesOf(b, scope);
    RowsAreCollected(q, b, 4);
    forall p | 0 <= p < |b.feePayments|
      ensures RowItems(q, b.txs, Tables(b)[4])[p].value
              == if InScope(q, Some(p)) then PaymentItems(b.fees, b.feePayments)[p].value else 0
    {
      FeeRow(b, scope, p);
    }
    ScopedRows(q, RowItems(q, b.txs, Tables(b)[4]), PaymentItems(b.fees, b.feePayments));
  }
}
