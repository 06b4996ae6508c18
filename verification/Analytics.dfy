/** Twelve months of collections: the joined cash flows grouped by month, then laid out over the calendar window. */
module Analytics {
  import opened Wrappers
  import opened Tally
  import opened Calendar
  import opened Ledger
  import opened Books
  import opened Reconciliation
  import opened Runs
  import opened CashFlows

  datatype Category = Contributions | RegistrationFees

  datatype Month = Month(year: int, month: int)

  datatype Bucket = Bucket(month: Month, contributions: int, registrationFees: int, totalCollected: int)

  type Totals = map<Month, map<Category, int>>

  function MonthOf(d: Date): Month {
    Month(d.year, d.month)
  }

  /** The joined rows of the window, labelled with the month they are grouped by. */
  function Selected(flows: seq<Flow>, start: Date, end: Date): seq<Item<Month>> {
    if flows == [] then []
    else
      var last := flows[|flows| - 1];
      Selected(flows[..|flows| - 1], start, end)
      + if Between(last.at, start, end) then [Item(MonthOf(last.at), last.amount)] else []
  }

  function Get(rows: seq<Item<Month>>, month: Month): Option<int> {
    if rows == [] then None
    else if rows[|rows| - 1].group == month then Some(rows[|rows| - 1].value)
    else Get(rows[..|rows| - 1], month)
  }

  function OrZero(v: Option<int>): int {
    if v.Some? then v.value else 0
  }

  function Upsert(rows: seq<Item<Month>>, x: Item<Month>): seq<Item<Month>> {
    if rows == [] then [x]
    else
      var n := |rows| - 1;
      if rows[n].group == x.group then rows[..n] + [Item(x.group, rows[n].value + x.value)]
      else Upsert(rows[..n], x) + [rows[n]]
  }

  /** GROUP BY month: one row per month that occurs, with its sum. */
  function Grouped(items: seq<Item<Month>>): seq<Item<Month>> {
    if items == [] then [] else Upsert(Grouped(items[..|items| - 1]), items[|items| - 1])
  }

  lemma {:induction false} GetAfterUpsert(rows: seq<Item<Month>>, x: Item<Month>, month: Month)
    ensures Get(Upsert(rows, x), month) == if month == x.group then Some(OrZero(Get(rows, month)) + x.value) else Get(rows, month)
  {
    if rows != [] {
      var n := |rows| - 1;
      if rows[n].group == x.group {
        assert Upsert(rows, x)[..n] == rows[..n];
      } else {
        GetAfterUpsert(rows[..n], x, month);
        assert Upsert(rows, x)[..|Upsert(rows, x)| - 1] == Upsert(rows[..n], x);
      }
    }
  }

  /** The grouped rows hold the sum of each month. */
  lemma {:induction false} GroupedSums(items: seq<Item<Month>>, month: Month)
    ensures OrZero(Get(Grouped(items), month)) == In(items, month)
  {
    if items != [] {
      GroupedSums(items[..|items| - 1], month);
      GetAfterUpsert(Grouped(items[..|items| - 1]), items[|items| - 1], month);
    }
  }

  function TotalOf(totals: Totals, month: Month, category: Category): Option<int> {
    if month in totals && category in totals[month] then Some(totals[month][category]) else None
  }

  method AddCategory(totals: Totals, category: Category, rows: seq<Item<Month>>) returns (r: Totals)
    requires forall m: Month :: TotalOf(totals, m, category).None?
    ensures forall m: Month :: TotalOf(r, m, category) == Get(rows, m)
    ensures forall m: Month, c: Category :: c != category ==> TotalOf(r, m, c) == TotalOf(totals, m, c)
  {
    r := totals;
    for i := 0 to |rows|
      invariant forall m: Month :: TotalOf(r, m, category) == Get(rows[..i], m)
      invariant forall m: Month, c: Category :: c != category ==> TotalOf(r, m, c) == TotalOf(totals, m, c)
    {
      assert rows[..i + 1][..i] == rows[..i];
      var month := rows[i].group;
      var values := if month in r then r[month] else map[];
      r := r[month := values[category := rows[i].value]];
    }
    assert rows[..|rows|] == rows;
  }

  // ----- the twelve months ----------------------------------------------------------------------

  /** Where the k-th bucket of the twelve months up to end begins, and the one before it ends. */
  function MonthStart(end: Date, k: int): (start: Date)
    requires Valid(end) && end.day == 1
    ensures Valid(start) && start.day == 1 && MonthIndex(start) == MonthIndex(end) + k - 11
  {
    MonthOffsetIsAnAction(end, k - 11, 0);
    MonthOffset(end, k - 11).value
  }

  /** What the transactions stored in the k-th month brought in. */
  function MonthCollected(q: Query, txs: seq<Transaction>, at: seq<Date>, end: Date, k: int): int
    requires |txs| == |at| && Valid(end) && end.day == 1
  {
    CollectedWithin(q, txs, at, |txs|, MonthStart(end, k), MonthStart(end, k + 1))
  }

  /** Within the window, being of a month and lying between its first day and the next month's are the same. */
  lemma MonthIsAWindow(end: Date, k: nat, d: Date)
    requires Valid(end) && end.day == 1 && Valid(d) && k < 12
    ensures Between(d, MonthStart(end, k), MonthStart(end, k + 1)) <==>
            Between(d, MonthStart(end, 0), MonthStart(end, 12)) && MonthOf(d) == MonthOf(MonthStart(end, k))
  {
    OrderOfMonths(d, MonthStart(end, 0));
    OrderOfMonths(d, MonthStart(end, 12));
    OrderOfMonths(d, MonthStart(end, k));
    OrderOfMonths(d, MonthStart(end, k + 1));
    OrderOfMonths(MonthStart(end, k), d);
  }

  lemma {:induction false} SelectedOfMonth(flows: seq<Flow>, end: Date, k: nat)
    requires Valid(end) && end.day == 1 && k < 12 && forall i :: 0 <= i < |flows| ==> Valid(flows[i].at)
    ensures In(Selected(flows, MonthStart(end, 0), MonthStart(end, 12)), MonthOf(MonthStart(end, k)))
            == FlowsWithin(flows, MonthStart(end, k), MonthStart(end, k + 1))
  {
    if flows != [] {
      var front, last := flows[..|flows| - 1], flows[|flows| - 1];
      SelectedOfMonth(front, end, k);
      MonthIsAWindow(end, k, last.at);
      var before := Selected(front, MonthStart(end, 0), MonthStart(end, 12));
      AfterPush(before, Item(MonthOf(last.at), last.amount), MonthOf(MonthStart(end, k)));
      assert before + [] == before;
    }
  }

  lemma {:induction false} RowsAreDated(lines: seq<Line>, cash: Account, at: Date)
    ensures forall i :: 0 <= i < |CashRows(lines, cash, at)| ==> CashRows(lines, cash, at)[i].at == at
  {
    if lines != [] {
      RowsAreDated(lines[..|lines| - 1], cash, at);
    }
  }

  lemma {:induction false} JoinedAreDated(q: Query, txs: seq<Transaction>, at: seq<Date>, n: nat)
    requires n <= |txs| == |at| && forall k :: 0 <= k < n ==> Valid(at[k])
    ensures forall i :: 0 <= i < |Joined(q, txs, at, n)| ==> Valid(Joined(q, txs, at, n)[i].at)
  {
    if n > 0 {
      JoinedAreDated(q, txs, at, n - 1);
      RowsAreDated(txs[n - 1].lines, Account(q.chama, CASH), at[n - 1]);
    }
  }

  /** The k-th bucket, from what the transactions of its month brought in. */
  function BucketFor(
      contributions: Query, fees: Query, txs: seq<Transaction>, at: seq<Date>, end: Date, k: int): Bucket
    requires |txs| == |at| && Valid(end) && end.day == 1
  {
    var contributed, paid := MonthCollected(contributions, txs, at, end, k), MonthCollected(fees, txs, at, end, k);
    Bucket(MonthOf(MonthStart(end, k)), contributed, paid, contributed + paid)
  }

  /** What grouping leaves under a month is what that month brought in. */
  lemma GroupedIsCollected(q: Query, txs: seq<Transaction>, at: seq<Date>, end: Date, k: nat)
    requires |txs| == |at| && Valid(end) && end.day == 1 && k < 12 && forall i :: 0 <= i < |at| ==> Valid(at[i])
    ensures var rows := Selected(Joined(q, txs, at, |txs|), MonthStart(end, 0), MonthStart(end, 12));
            OrZero(Get(Grouped(rows), MonthOf(MonthStart(end, k)))) == MonthCollected(q, txs, at, end, k)
  {
    var flows := Joined(q, txs, at, |txs|);
    GroupedSums(Selected(flows, MonthStart(end, 0), MonthStart(end, 12)), MonthOf(MonthStart(end, k)));
    JoinedAreDated(q, txs, at, |txs|);
    SelectedOfMonth(flows, end, k);
    JoinedAddUp(q, txs, at, |txs|, MonthStart(end, k), MonthStart(end, k + 1));
  }

  lemma BucketIsRight(
      contributions: Query, fees: Query, txs: seq<Transaction>, at: seq<Date>, end: Date, k: nat)
    requires |txs| == |at| && Valid(end) && end.day == 1 && k < 12 && forall i :: 0 <= i < |at| ==> Valid(at[i])
    ensures var start, limit := MonthStart(end, 0), MonthStart(end, 12);
            var month := MonthOf(MonthStart(end, k));
            var c := OrZero(Get(Grouped(Selected(Joined(contributions, txs, at, |txs|), start, limit)), month));
            var p := OrZero(Get(Grouped(Selected(Joined(fees, txs, at, |txs|), start, limit)), month));
            BucketFor(contributions, fees, txs, at, end, k) == Bucket(month, c, p, c + p)
  {
    GroupedIsCollected(contributions, txs, at, end, k);
    GroupedIsCollected(fees, txs, at, end, k);
  }

  /** Twelve buckets, oldest first, each holding exactly what the transactions of its month brought in. */
  method Collections(txs: seq<Transaction>, at: seq<Date>, contributions: Query, fees: Query, end: Date)
    returns (months: seq<Bucket>)
    requires |txs| == |at| && Valid(end) && end.day == 1 && forall i :: 0 <= i < |at| ==> Valid(at[i])
    ensures |months| == 12
    ensures forall k :: 0 <= k < 12 ==> months[k] == BucketFor(contributions, fees, txs, at, end, k)
  {
    var start, limit := MonthStart(end, 0), MonthStart(end, 12);
    var contributed := Grouped(Selected(Joined(contributions, txs, at, |txs|), start, limit));
    var paid := Grouped(Selected(Joined(fees, txs, at, |txs|), start, limit));
    var totals := AddCategory(map[], Contributions, contributed);
    totals := AddCategory(totals, RegistrationFees, paid);
    months := [];
    for offset := -11 to 1
      invariant |months| == offset + 11
      invariant forall k :: 0 <= k < offset + 11 ==> months[k] == BucketFor(contributions, fees, txs, at, end, k)
    {
      var month := MonthOf(MonthStart(end, offset + 11));
      var monthContributions := OrZero(TotalOf(totals, month, Contributions));
      var monthFees := OrZero(TotalOf(totals, month, RegistrationFees));
      BucketIsRight(contributions, fees, txs, at, end, offset + 11);
      months := months + [Bucket(month, monthContributions, monthFees, monthContributions + monthFees)];
    }
  }

  // ----- nothing is lost or counted twice -------------------------------------------------------

  /** What the first n buckets add up to in one category. */
  function FirstBuckets(q: Query, txs: seq<Transaction>, at: seq<Date>, end: Date, n: nat): int
    requires |txs| == |at| && Valid(end) && end.day == 1
  {
    if n == 0 then 0 else FirstBuckets(q, txs, at, end, n - 1) + MonthCollected(q, txs, at, end, n - 1)
  }

  lemma {:induction false} WindowsJoin(
      q: Query, txs: seq<Transaction>, at: seq<Date>, n: nat, start: Date, middle: Date, end: Date)
    requires n <= |txs| == |at| && !Before(middle, start) && !Before(end, middle)
    ensures CollectedWithin(q, txs, at, n, start, end)
            == CollectedWithin(q, txs, at, n, start, middle) + CollectedWithin(q, txs, at, n, middle, end)
  {
    if n > 0 {
      WindowsJoin(q, txs, at, n - 1, start, middle, end);
    }
  }

  lemma {:induction false} EmptyWindow(q: Query, txs: seq<Transaction>, at: seq<Date>, n: nat, start: Date)
    requires n <= |txs| == |at|
    ensures CollectedWithin(q, txs, at, n, start, start) == 0
  {
    if n > 0 {
      EmptyWindow(q, txs, at, n - 1, start);
    }
  }

  /** The buckets add up to everything the window brought in: nothing is lost and nothing is counted twice. */
  lemma {:induction false} BucketsConserveCollections(q: Query, txs: seq<Transaction>, at: seq<Date>, end: Date, n: nat)
    requires |txs| == |at| && Valid(end) && end.day == 1
    ensures FirstBuckets(q, txs, at, end, n) == CollectedWithin(q, txs, at, |txs|, MonthStart(end, 0), MonthStart(end, n))
  {
    if n == 0 {
      EmptyWindow(q, txs, at, |txs|, MonthStart(end, 0));
    } else {
      BucketsConserveCollections(q, txs, at, end, n - 1);
      OrderOfMonths(MonthStart(end, n - 1), MonthStart(end, 0));
      OrderOfMonths(MonthStart(end, n), MonthStart(end, n - 1));
      WindowsJoin(q, txs, at, |txs|, MonthStart(end, 0), MonthStart(end, n - 1), MonthStart(end, n));
    }
  }

  lemma {:induction false} WholeLifeInWindow(q: Query, txs: seq<Transaction>, at: seq<Date>, n: nat, start: Date, end: Date)
    requires n <= |txs| == |at| && forall k :: 0 <= k < n ==> Between(at[k], start, end)
    ensures CollectedWithin(q, txs, at, n, start, end) == CollectedEver(q, txs, n)
  {
    if n > 0 {
      WholeLifeInWindow(q, txs, at, n - 1, start, end);
    }
  }

  /**
   The twelve months of contributions of a group younger than that add up to the contributions confirmed now, for
   the whole group or for one member: a reversal takes its money out of the month it is stored in.
   */
  lemma TwelveMonthsAreConfirmedContributions(b: Books, at: seq<Date>, end: Date, scope: Option<nat>)
    requires Inv(b) && |at| == |b.txs| && Valid(end) && end.day == 1
    requires forall k :: 0 <= k < |at| ==> Between(at[k], MonthStart(end, 0), MonthStart(end, 12))
    ensures FirstBuckets(ContributionsOf(b, scope), b.txs, at, end, 12) == Scoped(ConfirmedItems(b.contributions), scope)
  {
    BucketsConserveCollections(ContributionsOf(b, scope), b.txs, at, end, 12);
    WholeLifeInWindow(ContributionsOf(b, scope), b.txs, at, |at|, MonthStart(end, 0), MonthStart(end, 12));
    CollectedContributionsAreConfirmed(b, scope);
  }
}
