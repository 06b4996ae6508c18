/**
 Newest-first history with a cursor. A page is read with one row of look-ahead, and the last row
 handed out is the cursor of the next page; rows are never changed, but others may be inserted between pages.
 */
module Pagination {
  import opened Wrappers
  import opened Tally

  /** What a row is sorted by: its creation time, then its id. */
  datatype Row = Row(at: int, id: nat)

  predicate Before(a: Row, b: Row) {
    a.at < b.at || (a.at == b.at && a.id < b.id)
  }

  ghost predicate Descending(rows: seq<Row>) {
    forall i, j :: 0 <= i < j < |rows| ==> Before(rows[j], rows[i])
  }

  predicate Below(row: Row, cursor: Option<Row>) {
    cursor.None? || Before(row, cursor.value)
  }

  function Insert(x: Row, rows: seq<Row>): (r: seq<Row>)
    requires Descending(rows)
    ensures forall y :: y in r <==> y == x || y in rows
    ensures x !in rows ==> Descending(r)
    ensures |r| == |rows| + 1
  {
    if rows == [] || !Before(x, rows[0]) then [x] + rows
    else
      var rest := Insert(x, rows[1..]);
      assert rows == [rows[0]] + rows[1..];
      assert x != rows[0] ==> forall i :: 0 <= i < |rest| ==> rest[i] == x || rest[i] in rows[1..];
      [rows[0]] + rest
  }

  /** The rows below the cursor, newest first. */
  function Ordered(table: seq<Row>, cursor: Option<Row>): (r: seq<Row>)
    requires Distinct(table)
    ensures Descending(r)
    ensures forall x :: x in r <==> x in table && Below(x, cursor)
  {
    if table == [] then []
    else
      var n := |table| - 1;
      var front := Ordered(table[..n], cursor);
      assert table == table[..n] + [table[n]];
      if Below(table[n], cursor) then Insert(table[n], front) else front
  }

  function ListPage(table: seq<Row>, limit: nat, cursor: Option<Row>): seq<Row>
    requires Distinct(table)
  {
    var rows := Ordered(table, cursor);
    if |rows| > limit then rows[..limit] else rows
  }

  datatype Page = Page(items: seq<Row>, next: Option<Row>, more: bool)

  /** One request: look one row ahead, hand out the rest, and name the last row handed out. */
  function ListLedger(table: seq<Row>, limit: nat, cursor: Option<Row>): Page
    requires Distinct(table)
  {
    var page := ListPage(table, limit + 1, cursor);
    var more := |page| > limit;
    var items := if more then page[..limit] else page;
    Page(items, if more && items != [] then Some(items[|items| - 1]) else None, more)
  }

  // ----- following the cursors ------------------------------------------------------------------

  ghost predicate Kept(table: seq<Row>, later: seq<Row>) {
    forall x :: x in table ==> x in later
  }

  /** The table as each request finds it; rows are only ever added. */
  ghost predicate Growing(tables: seq<seq<Row>>) {
    && (forall i :: 0 <= i < |tables| ==> Distinct(tables[i]))
    && (forall i :: 0 < i < |tables| ==> Kept(tables[i - 1], tables[i]))
  }

  lemma {:induction false} FirstRowsStay(tables: seq<seq<Row>>, i: nat)
    requires Growing(tables) && i < |tables|
    ensures Kept(tables[0], tables[i])
  {
    if i > 0 {
      FirstRowsStay(tables, i - 1);
    }
  }

  /** A client asks for the next page until there are no more. */
  function NextPage(table: seq<Row>, limit: nat, soFar: Page): Page
    requires Distinct(table)
  {
    if !soFar.more then soFar
    else
      var page := ListLedger(table, limit, soFar.next);
      Page(soFar.items + page.items, page.next, page.more)
  }

  /** Everything handed out by the first n requests, and the answer of the last one. */
  ghost function Follow(tables: seq<seq<Row>>, limit: nat, n: nat): Page
    requires Growing(tables) && n <= |tables|
  {
    if n == 0 then Page([], None, true)
    else
      NextPage(tables[n - 1], limit, Follow(tables, limit, n - 1))
  }

  /** What one page does to a walk: it continues the descent and skips nothing below the cursor. */
  lemma OnePage(table: seq<Row>, limit: nat, cursor: Option<Row>)
    requires Distinct(table) && limit >= 1
    ensures var page := ListLedger(table, limit, cursor);
            && Descending(page.items)
            && (forall x :: x in page.items ==> x in table && Below(x, cursor))
            && (forall x :: x in table && Below(x, cursor) && x !in page.items ==> page.more && Below(x, page.next))
            && (page.more ==> |page.items| == limit && page.next == Some(page.items[limit - 1]))
  {
  }

  /** The state of a walk whose pages so far made up this many rows: first is the table it started on. */
  ghost predicate Walked(first: seq<Row>, table: seq<Row>, count: nat, page: Page) {
    && Descending(page.items)
    && (forall x :: x in page.items ==> x in table)
    && (forall x :: x in first && x !in page.items ==> page.more && Below(x, page.next))
    && (page.more ==> |page.items| == count)
    && (page.more ==> page.next == if count > 0 then Some(page.items[count - 1]) else None)
  }

  lemma WalkContinues(first: seq<Row>, before: seq<Row>, table: seq<Row>, limit: nat, count: nat, soFar: Page)
    requires Distinct(table) && limit >= 1 && Walked(first, before, count, soFar) && soFar.more
    requires Kept(first, table) && Kept(before, table)
    ensures var page := ListLedger(table, limit, soFar.next);
            Walked(first, table, count + limit, Page(soFar.items + page.items, page.next, page.more))
  {
    OnePage(table, limit, soFar.next);
    Continued(soFar.items, ListLedger(table, limit, soFar.next).items, soFar.next);
  }

  /** The rows on n full pages. */
  function FullPages(limit: nat, n: nat): nat {
    if n == 0 then 0 else FullPages(limit, n - 1) + limit
  }

  lemma {:induction false} FullPagesMultiply(limit: nat, n: nat)
    ensures FullPages(limit, n) == n * limit
  {
    if n > 0 {
      FullPagesMultiply(limit, n - 1);
      assert n * limit == (n - 1) * limit + limit;
    }
  }

  lemma {:induction false} WalkIsOrderly(tables: seq<seq<Row>>, limit: nat, n: nat)
    requires Growing(tables) && limit >= 1 && 0 < n <= |tables|
    ensures Walked(tables[0], tables[n - 1], FullPages(limit, n), Follow(tables, limit, n))
  {
    FirstRowsStay(tables, n - 1);
    if n == 1 {
      var start := Follow(tables, limit, 0);
      assert Follow(tables, limit, 1) == NextPage(tables[0], limit, start) && FullPages(limit, 1) == limit;
      WalkMoves(tables[0], [], tables[0], limit, 0, start);
    } else {
      WalkIsOrderly(tables, limit, n - 1);
      assert Kept(tables[n - 2], tables[n - 1]);
      WalkMoves(tables[0], tables[n - 2], tables[n - 1], limit, FullPages(limit, n - 1), Follow(tables, limit, n - 1));
    }
  }

  lemma WalkMoves(first: seq<Row>, before: seq<Row>, table: seq<Row>, limit: nat, count: nat, soFar: Page)
    requires Distinct(table) && limit >= 1 && Walked(first, before, count, soFar)
    requires Kept(first, table) && Kept(before, table)
    ensures Walked(first, table, count + limit, NextPage(table, limit, soFar))
  {
    if soFar.more {
      WalkContinues(first, before, table, limit, count, soFar);
    } else {
      WalkRests(first, before, table, count, count + limit, soFar);
    }
  }

  lemma WalkRests(first: seq<Row>, before: seq<Row>, table: seq<Row>, count: nat, later: nat, soFar: Page)
    requires Walked(first, before, count, soFar) && !soFar.more && Kept(before, table)
    ensures Walked(first, table, later, soFar)
  {
  }

  lemma Continued(read: seq<Row>, page: seq<Row>, cursor: Option<Row>)
    requires Descending(read) && Descending(page) && forall x :: x in page ==> Below(x, cursor)
    requires if read == [] then cursor.None? else cursor == Some(read[|read| - 1])
    ensures Descending(read + page)
  {
    forall i, j | 0 <= i < j < |read + page| ensures Before((read + page)[j], (read + page)[i]) {
      if i < |read| <= j {
        assert page[j - |read|] in page;
      }
    }
  }

  /**
   Whatever is inserted between the requests, a walk that reached its last page handed out newest first
   every row that was there at the start, each exactly once, and no row twice.
   */
  lemma PaginationIsComplete(tables: seq<seq<Row>>, limit: nat, n: nat, x: Row)
    requires Growing(tables) && limit >= 1 && 0 < n <= |tables| && !Follow(tables, limit, n).more
    ensures var items := Follow(tables, limit, n).items;
            && Descending(items) && Distinct(items)
            && (x in tables[0] ==> exists i :: 0 <= i < |items| && items[i] == x && forall j :: 0 <= j < |items| && items[j] == x ==> j == i)
            && (x in items ==> x in tables[n - 1])
  {
    WalkIsOrderly(tables, limit, n);
    DescendingIsDistinct(Follow(tables, limit, n).items);
    if x in tables[0] {
      OnlyOnce(Follow(tables, limit, n).items, x);
    }
  }

  lemma DescendingIsDistinct(rows: seq<Row>)
    requires Descending(rows)
    ensures Distinct(rows)
  {
  }

  lemma OnlyOnce(rows: seq<Row>, x: Row)
    requires Distinct(rows) && x in rows
    ensures exists i :: 0 <= i < |rows| && rows[i] == x && forall j :: 0 <= j < |rows| && rows[j] == x ==> j == i
  {
  }

  function Elements(rows: seq<Row>): set<Row> {
    set i | 0 <= i < |rows| :: rows[i]
  }

  lemma {:induction false} CountElements(rows: seq<Row>)
    ensures |Elements(rows)| <= |rows|
    ensures Distinct(rows) ==> |Elements(rows)| == |rows|
  {
    if rows == [] {
      assert Elements(rows) == {};
    } else {
      var n := |rows| - 1;
      CountElements(rows[..n]);
      assert Elements(rows) == Elements(rows[..n]) + {rows[n]};
    }
  }

  lemma Fits(items: seq<Row>, table: seq<Row>)
    requires Distinct(items) && forall x :: x in items ==> x in table
    ensures |items| <= |table|
  {
    CountElements(items);
    CountElements(table);
    assert Elements(items) <= Elements(table) by {
      forall x | x in Elements(items) ensures x in Elements(table) {
        assert x in items && x in table;
      }
    }
    Subsets(Elements(items), Elements(table));
  }

  lemma {:induction false} Subsets(a: set<Row>, b: set<Row>)
    requires a <= b
    ensures |a| <= |b|
    decreases a
  {
    if a != {} {
      var x :| x in a;
      Subsets(a - {x}, b - {x});
    }
  }

  /** A walk ends: once the pages asked for hold more rows than the table ever had, the last page was reached. */
  lemma PaginationTerminates(tables: seq<seq<Row>>, limit: nat, n: nat)
    requires Growing(tables) && limit >= 1 && 0 < n <= |tables|
    requires n * limit > |tables[n - 1]|
    ensures !Follow(tables, limit, n).more
  {
    WalkIsOrderly(tables, limit, n);
    FullPagesMultiply(limit, n);
    if Follow(tables, limit, n).more {
      Fits(Follow(tables, limit, n).items, tables[n - 1]);
    }
  }
}
