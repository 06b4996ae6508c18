/**
 What every sub-ledger has in common. A row that moves money owns an entry: the source and payload of
 the posting it makes, the memo of its reversal, and whether the row's status says the money counts.
 The status view adds up the rows that count; the ledger view adds up the rows whose posting stands.
 */
module Subledger {
  import opened Wrappers
  import opened Ledger
  import opened Tally

  datatype Entry = Entry(source: Source, memo: Memo, undo: Memo, lines: seq<Line>, counts: bool)

  function PostingOf(chama: nat, e: Entry): Transaction {
    Transaction(chama, e.source, Some(e.memo), None, e.lines)
  }

  function ReversalOf(chama: nat, txs: seq<Transaction>, id: nat, undo: Memo): Transaction
    requires id < |txs|
  {
    Transaction(chama, Source(LedgerReversal, id), Some(undo), Some(id), Mirrored(txs[id].lines))
  }

  predicate HasReversal(txs: seq<Transaction>, id: nat) {
    Find(txs, Source(LedgerReversal, id)).Some?
  }

  /** The source has a posting and nobody reversed it. */
  predicate Standing(txs: seq<Transaction>, source: Source) {
    Find(txs, source).Some? && !HasReversal(txs, Find(txs, source).value)
  }

  /** Reverse the posting of a row unless it has none or it is already reversed. */
  function Undo(chama: nat, txs: seq<Transaction>, e: Entry): seq<Transaction> {
    if Standing(txs, e.source) then txs + [ReversalOf(chama, txs, Find(txs, e.source).value, e.undo)] else txs
  }

  // ----- agreement between rows and postings ----------------------------------------------------

  /** One Chama's store: sound, and every reversal is filed under the transaction it reverses. */
  ghost predicate OneChama(accounts: set<Account>, chama: nat, txs: seq<Transaction>) {
    && WellFormed(accounts, txs)
    && (forall k :: 0 <= k < |txs| ==> txs[k].chama == chama)
    && (forall k :: 0 <= k < |txs| && txs[k].reverses.Some? ==>
          txs[k].source == Source(LedgerReversal, txs[k].reverses.value))
  }

  /** A counted row is posted, a posted row carries its canonical payload, a standing posting is counted. */
  ghost predicate Agrees(chama: nat, txs: seq<Transaction>, e: Entry) {
    var posting := Find(txs, e.source);
    && e.source.kind != LedgerReversal
    && (e.counts ==> posting.Some?)
    && (Standing(txs, e.source) ==> e.counts)
    && (posting.Some? ==> txs[posting.value] == PostingOf(chama, e))
    && (posting.Some? && HasReversal(txs, posting.value) ==>
          var reversal := txs[Find(txs, Source(LedgerReversal, posting.value)).value];
          reversal == ReversalOf(chama, txs, posting.value, e.undo))
  }

  /** The reversal is in the ledger but the row's status has not moved yet: a crash between two commits. */
  predicate InFlight(txs: seq<Transaction>, e: Entry) {
    e.counts && !Standing(txs, e.source)
  }

  /** Tables of entries; row j of table i posts under kind i and id j. */
  ghost predicate AllAgree(chama: nat, txs: seq<Transaction>, kinds: seq<SourceType>, tables: seq<seq<Entry>>) {
    && |tables| == |kinds|
    && (forall i, j :: 0 <= i < j < |kinds| ==> kinds[i] != kinds[j])
    && (forall i, j :: 0 <= i < |tables| && 0 <= j < |tables[i]| ==>
          tables[i][j].source == Source(kinds[i], j) && Agrees(chama, txs, tables[i][j]))
    && (forall k :: 0 <= k < |txs| && txs[k].reverses.None? ==>
          exists i :: 0 <= i < |kinds| && txs[k].source.kind == kinds[i] && txs[k].source.id < |tables[i]|)
  }

  predicate SamePosting(a: Entry, b: Entry) {
    a.source == b.source && a.memo == b.memo && a.undo == b.undo && a.lines == b.lines
  }

  /** The tables differ at most in row j of table i, which may be new; postings of old rows never change. */
  ghost predicate OnlyRow(tables: seq<seq<Entry>>, later: seq<seq<Entry>>, i: nat, j: nat) {
    && i < |tables| && |later| == |tables|
    && (forall x :: 0 <= x < |tables| && x != i ==> later[x] == tables[x])
    && j <= |tables[i]| && |later[i]| == (if j == |tables[i]| then j + 1 else |tables[i]|)
    && (forall y :: 0 <= y < |tables[i]| && y != j ==> later[i][y] == tables[i][y])
    && (j < |tables[i]| ==> SamePosting(tables[i][j], later[i][j]))
  }

  // ----- the two views of an account ------------------------------------------------------------

  function StandingItems(txs: seq<Transaction>, entries: seq<Entry>, account: Account): (items: seq<Item<Source>>)
    ensures |items| == |entries|
  {
    seq(|entries|, i requires 0 <= i < |entries| =>
      Item(entries[i].source, if Standing(txs, entries[i].source) then Net(entries[i].lines, account) else 0))
  }

  function CountedItems(entries: seq<Entry>, account: Account): (items: seq<Item<Source>>)
    ensures |items| == |entries|
  {
    seq(|entries|, i requires 0 <= i < |entries| =>
      Item(entries[i].source, if entries[i].counts then Net(entries[i].lines, account) else 0))
  }

  function InFlightItems(txs: seq<Transaction>, entries: seq<Entry>, account: Account): (items: seq<Item<Source>>)
    ensures |items| == |entries|
  {
    seq(|entries|, i requires 0 <= i < |entries| =>
      Item(entries[i].source, if InFlight(txs, entries[i]) then Net(entries[i].lines, account) else 0))
  }

  function LedgerView(txs: seq<Transaction>, tables: seq<seq<Entry>>, account: Account): int {
    if tables == [] then 0
    else LedgerView(txs, tables[..|tables| - 1], account) + Sum(StandingItems(txs, tables[|tables| - 1], account))
  }

  function StatusView(tables: seq<seq<Entry>>, account: Account): int {
    if tables == [] then 0
    else StatusView(tables[..|tables| - 1], account) + Sum(CountedItems(tables[|tables| - 1], account))
  }

  function InFlightView(txs: seq<Transaction>, tables: seq<seq<Entry>>, account: Account): int {
    if tables == [] then 0
    else InFlightView(txs, tables[..|tables| - 1], account) + Sum(InFlightItems(txs, tables[|tables| - 1], account))
  }

  lemma {:induction false} ItemsAddUp(xs: seq<Item<Source>>, ys: seq<Item<Source>>, zs: seq<Item<Source>>)
    requires |xs| == |ys| == |zs| && forall i :: 0 <= i < |xs| ==> xs[i].value == ys[i].value + zs[i].value
    ensures Sum(xs) == Sum(ys) + Sum(zs)
  {
    if xs != [] {
      ItemsAddUp(xs[..|xs| - 1], ys[..|ys| - 1], zs[..|zs| - 1]);
    }
  }

  /** The status side exceeds the ledger side by exactly the postings in flight. */
  lemma {:induction false} ViewsDifferByInFlight(
      chama: nat, txs: seq<Transaction>, tables: seq<seq<Entry>>, account: Account)
    requires forall i, j :: 0 <= i < |tables| && 0 <= j < |tables[i]| ==> Agrees(chama, txs, tables[i][j])
    ensures StatusView(tables, account) == LedgerView(txs, tables, account) + InFlightView(txs, tables, account)
  {
    if tables != [] {
      var last := tables[|tables| - 1];
      ViewsDifferByInFlight(chama, txs, tables[..|tables| - 1], account);
      forall j | 0 <= j < |last|
        ensures CountedItems(last, account)[j].value
                == StandingItems(txs, last, account)[j].value + InFlightItems(txs, last, account)[j].value
      {
        assert Agrees(chama, txs, last[j]);
      }
      ItemsAddUp(CountedItems(last, account), StandingItems(txs, last, account), InFlightItems(txs, last, account));
    }
  }

  function StandingNet(txs: seq<Transaction>, e: Entry, account: Account): int {
    if Standing(txs, e.source) then Net(e.lines, account) else 0
  }

  lemma OneTableMoves(
      before: seq<Transaction>, after: seq<Transaction>, old_: seq<Entry>, new_: seq<Entry>,
      account: Account, j: nat)
    requires j <= |old_| && |new_| == (if j == |old_| then j + 1 else |old_|)
    requires forall y :: 0 <= y < |old_| ==> SamePosting(old_[y], new_[y])
    requires forall y :: 0 <= y < |old_| && y != j ==> Standing(after, old_[y].source) == Standing(before, old_[y].source)
    ensures Sum(StandingItems(after, new_, account)) == Sum(StandingItems(before, old_, account))
            + StandingNet(after, new_[j], account) - (if j < |old_| then StandingNet(before, old_[j], account) else 0)
  {
    var xs := StandingItems(before, old_, account);
    var ys := StandingItems(after, new_, account);
    SumExceptAt(xs, ys[..|xs|], j);
    if j == |old_| {
      AfterPush(ys[..j], ys[j], new_[j].source);
      assert ys == ys[..j] + [ys[j]];
    } else {
      assert ys[..|xs|] == ys;
    }
  }

  lemma SameTable(before: seq<Transaction>, after: seq<Transaction>, entries: seq<Entry>, account: Account)
    requires forall y :: 0 <= y < |entries| ==> Standing(after, entries[y].source) == Standing(before, entries[y].source)
    ensures Sum(StandingItems(after, entries, account)) == Sum(StandingItems(before, entries, account))
  {
    SumExceptAt(StandingItems(before, entries, account), StandingItems(after, entries, account), |entries|);
  }

  /** When one row moves and every other row stands as before, the ledger view moves by that row alone. */
  lemma {:induction false} LedgerViewMoves(
      before: seq<Transaction>, after: seq<Transaction>, tables: seq<seq<Entry>>, later: seq<seq<Entry>>,
      account: Account, i: nat, j: nat)
    requires |later| == |tables|
    requires forall x :: 0 <= x < |tables| && x != i ==> later[x] == tables[x]
    requires i < |tables| ==> OnlyRow(tables, later, i, j)
    requires forall x, y :: 0 <= x < |tables| && 0 <= y < |tables[x]| && !(x == i && y == j) ==>
               Standing(after, tables[x][y].source) == Standing(before, tables[x][y].source)
    ensures LedgerView(after, later, account) == LedgerView(before, tables, account)
            + if i < |tables| then
                StandingNet(after, later[i][j], account) - (if j < |tables[i]| then StandingNet(before, tables[i][j], account) else 0)
              else 0
  {
    if tables != [] {
      var n := |tables| - 1;
      assert forall x, y :: 0 <= x < n && 0 <= y < |tables[..n][x]| ==> tables[..n][x][y] == tables[x][y];
      LedgerViewMoves(before, after, tables[..n], later[..n], account, i, j);
      if i == n {
        OneTableMoves(before, after, tables[n], later[n], account, j);
      } else {
        SameTable(before, after, tables[n], account);
      }
    }
  }

  // ----- the three kinds of commit --------------------------------------------------------------

  lemma ReversalsAreMarked(accounts: set<Account>, txs: seq<Transaction>)
    requires WellFormed(accounts, txs)
    ensures forall k :: 0 <= k < |txs| ==>
              && (txs[k].reverses.Some? <==> txs[k].source.kind == LedgerReversal)
              && (txs[k].reverses.Some? ==> txs[k].reverses.value < k)
  {
    forall k | 0 <= k < |txs|
      ensures txs[k].reverses.Some? <==> txs[k].source.kind == LedgerReversal
      ensures txs[k].reverses.Some? ==> txs[k].reverses.value < k
    {
      assert SoundTransaction(accounts, txs, k);
    }
  }

  lemma StandingAfterPosting(accounts: set<Account>, chama: nat, txs: seq<Transaction>, e: Entry, source: Source)
    requires OneChama(accounts, chama, txs) && e.source.kind != LedgerReversal && source.kind != LedgerReversal
    requires Find(txs, e.source).None?
    ensures var after := txs + [PostingOf(chama, e)];
            && (source == e.source ==> Standing(after, source) && Find(after, source) == Some(|txs|) && !HasReversal(after, |txs|))
            && (source != e.source ==> Standing(after, source) == Standing(txs, source) && Find(after, source) == Find(txs, source))
            && (forall id: nat :: Find(after, Source(LedgerReversal, id)) == Find(txs, Source(LedgerReversal, id)))
  {
    var t := PostingOf(chama, e);
    FindAfterAppend(txs, t, source);
    forall id: nat
      ensures Find(txs + [t], Source(LedgerReversal, id)) == Find(txs, Source(LedgerReversal, id))
    {
      FindAfterAppend(txs, t, Source(LedgerReversal, id));
    }
    ReversalsAreMarked(accounts, txs);
  }

  lemma StandingAfterReversal(
      accounts: set<Account>, chama: nat, txs: seq<Transaction>, undone: Source, undo: Memo,
      source: Source)
    requires OneChama(accounts, chama, txs) && undone.kind != LedgerReversal && source.kind != LedgerReversal
    requires Standing(txs, undone)
    ensures var id := Find(txs, undone).value;
            var after := txs + [ReversalOf(chama, txs, id, undo)];
            && Find(after, source) == Find(txs, source)
            && (Standing(after, source) <==> Standing(txs, source) && source != undone)
            && Find(after, Source(LedgerReversal, id)) == Some(|txs|)
            && (forall x: nat :: x != id ==> Find(after, Source(LedgerReversal, x)) == Find(txs, Source(LedgerReversal, x)))
  {
    var id := Find(txs, undone).value;
    var t := ReversalOf(chama, txs, id, undo);
    FindAfterAppend(txs, t, source);
    forall x: nat
      ensures Find(txs + [t], Source(LedgerReversal, x)) ==
              if x == id then Some(|txs|) else Find(txs, Source(LedgerReversal, x))
    {
      FindAfterAppend(txs, t, Source(LedgerReversal, x));
    }
  }

  /** Postings of every other source are found and stand as before. */
  ghost predicate OthersKeptBut(before: seq<Transaction>, after: seq<Transaction>, source: Source) {
    forall s: Source :: s.kind != LedgerReversal && s != source ==>
      Find(after, s) == Find(before, s) && Standing(after, s) == Standing(before, s)
  }

  /** Rows that differ from the moved one agree with the longer store when their postings stand as before. */
  ghost predicate AgreeBut(
      chama: nat, txs: seq<Transaction>, kinds: seq<SourceType>, tables: seq<seq<Entry>>, i: nat, j: nat) {
    |kinds| == |tables| && forall x, y :: 0 <= x < |tables| && 0 <= y < |tables[x]| && !(x == i && y == j) ==>
      tables[x][y].source == Source(kinds[x], y) && Agrees(chama, txs, tables[x][y])
  }

  lemma PostingKeepsOthers(accounts: set<Account>, chama: nat, txs: seq<Transaction>, e: Entry, f: Entry)
    requires OneChama(accounts, chama, txs) && e.source.kind != LedgerReversal && Find(txs, e.source).None?
    requires Agrees(chama, txs, f) && f.source != e.source
    ensures Agrees(chama, txs + [PostingOf(chama, e)], f)
    ensures Standing(txs + [PostingOf(chama, e)], f.source) == Standing(txs, f.source)
  {
  }

  /** A commit that posts one row for the first time keeps the store sound. */
  lemma PostingKeepsStore(accounts: set<Account>, chama: nat, txs: seq<Transaction>, e: Entry)
    requires OneChama(accounts, chama, txs) && e.source.kind != LedgerReversal && Find(txs, e.source).None?
    requires Balanced(accounts, chama, e.lines) && e.counts
    ensures var after := txs + [PostingOf(chama, e)];
            && OneChama(accounts, chama, after) && Agrees(chama, after, e)
            && OthersKeptBut(txs, after, e.source) && Standing(after, e.source)
  {
    var after := txs + [PostingOf(chama, e)];
    AppendKeepsWellFormed(accounts, txs, PostingOf(chama, e));
    forall s: Source | s.kind != LedgerReversal
      ensures s != e.source ==> Find(after, s) == Find(txs, s) && Standing(after, s) == Standing(txs, s)
      ensures s == e.source ==> Standing(after, s) && Find(after, s) == Some(|txs|)
    {
      StandingAfterPosting(accounts, chama, txs, e, s);
    }
  }

  lemma PostingCommit(
      accounts: set<Account>, chama: nat, txs: seq<Transaction>, kinds: seq<SourceType>,
      tables: seq<seq<Entry>>, later: seq<seq<Entry>>, i: nat, j: nat, account: Account)
    requires OneChama(accounts, chama, txs) && AllAgree(chama, txs, kinds, tables) && OnlyRow(tables, later, i, j)
    requires later[i][j].source == Source(kinds[i], j) && kinds[i] != LedgerReversal && later[i][j].counts
    requires Find(txs, later[i][j].source).None? && Balanced(accounts, chama, later[i][j].lines)
    ensures var after := txs + [PostingOf(chama, later[i][j])];
            && OneChama(accounts, chama, after) && AllAgree(chama, after, kinds, later)
            && OthersKeptBut(txs, after, later[i][j].source) && Standing(after, later[i][j].source)
            && LedgerView(after, later, account) - LedgerView(txs, tables, account)
               == Balance(after, account) - Balance(txs, account)
  {
    var e := later[i][j];
    var after := txs + [PostingOf(chama, e)];
    PostingKeepsStore(accounts, chama, txs, e);
    forall x, y | 0 <= x < |later| && 0 <= y < |later[x]| && !(x == i && y == j)
      ensures later[x][y].source == Source(kinds[x], y) && Agrees(chama, after, later[x][y])
      ensures Standing(after, tables[x][y].source) == Standing(txs, tables[x][y].source)
    {
      assert later[x][y] == tables[x][y];
      PostingKeepsOthers(accounts, chama, txs, e, tables[x][y]);
    }
    StoredRowsExist(chama, txs, after, kinds, tables, later, i, j);
    LedgerViewMoves(txs, after, tables, later, account, i, j);
    BalanceAfterAppend(txs, PostingOf(chama, e), account);
  }

  /** Agreement row by row, after at most one more transaction filed under the moved row or reversing. */
  lemma StoredRowsExist(
      chama: nat, txs: seq<Transaction>, after: seq<Transaction>, kinds: seq<SourceType>,
      tables: seq<seq<Entry>>, later: seq<seq<Entry>>, i: nat, j: nat)
    requires AllAgree(chama, txs, kinds, tables) && OnlyRow(tables, later, i, j)
    requires txs <= after && |after| <= |txs| + 1
    requires |after| > |txs| && after[|txs|].reverses.None? ==> after[|txs|].source == Source(kinds[i], j)
    requires AgreeBut(chama, after, kinds, later, i, j)
    requires later[i][j].source == Source(kinds[i], j) && Agrees(chama, after, later[i][j])
    ensures AllAgree(chama, after, kinds, later)
  {
  }

  lemma ReversalKeepsOthers(accounts: set<Account>, chama: nat, txs: seq<Transaction>, e: Entry, f: Entry)
    requires OneChama(accounts, chama, txs) && e.source.kind != LedgerReversal && Standing(txs, e.source)
    requires Agrees(chama, txs, f) && f.source != e.source
    ensures Agrees(chama, Undo(chama, txs, e), f)
    ensures Standing(Undo(chama, txs, e), f.source) == Standing(txs, f.source)
  {
  }

  /** Undoing a standing posting keeps the store sound; the row may still count (a crash) or not. */
  lemma UndoKeepsStore(accounts: set<Account>, chama: nat, txs: seq<Transaction>, e: Entry, f: Entry)
    requires OneChama(accounts, chama, txs) && Agrees(chama, txs, e) && Standing(txs, e.source) && SamePosting(e, f)
    ensures var after := Undo(chama, txs, e);
            && OneChama(accounts, chama, after) && Agrees(chama, after, f)
            && OthersKeptBut(txs, after, e.source)
            && !Standing(after, e.source) && Find(after, e.source) == Find(txs, e.source)
  {
    var id := Find(txs, e.source).value;
    var after := Undo(chama, txs, e);
    assert SoundTransaction(accounts, txs, id);
    MirroredIsBalanced(accounts, chama, txs[id].lines);
    AppendKeepsWellFormed(accounts, txs, ReversalOf(chama, txs, id, e.undo));
    forall s: Source | s.kind != LedgerReversal
      ensures Find(after, s) == Find(txs, s) && (Standing(after, s) <==> Standing(txs, s) && s != e.source)
      ensures Find(after, Source(LedgerReversal, id)) == Some(|txs|)
    {
      StandingAfterReversal(accounts, chama, txs, e.source, e.undo, s);
    }
    StandingAfterReversal(accounts, chama, txs, e.source, e.undo, e.source);
  }

  /** A commit that reverses the posting of one row. */
  lemma ReversalCommit(
      accounts: set<Account>, chama: nat, txs: seq<Transaction>, kinds: seq<SourceType>,
      tables: seq<seq<Entry>>, later: seq<seq<Entry>>, i: nat, j: nat, account: Account)
    requires OneChama(accounts, chama, txs) && AllAgree(chama, txs, kinds, tables) && OnlyRow(tables, later, i, j)
    requires j < |tables[i]| && tables[i][j].counts
    ensures var after := Undo(chama, txs, tables[i][j]);
            && OneChama(accounts, chama, after) && AllAgree(chama, after, kinds, later)
            && OthersKeptBut(txs, after, tables[i][j].source)
            && !Standing(after, later[i][j].source) && Find(after, later[i][j].source) == Find(txs, later[i][j].source)
            && LedgerView(after, later, account) - LedgerView(txs, tables, account)
               == Balance(after, account) - Balance(txs, account)
  {
    var e := tables[i][j];
    var after := Undo(chama, txs, e);
    assert Agrees(chama, txs, e);
    if Standing(txs, e.source) {
      UndoKeepsStore(accounts, chama, txs, e, later[i][j]);
      forall x, y | 0 <= x < |later| && 0 <= y < |later[x]| && !(x == i && y == j)
        ensures later[x][y].source == Source(kinds[x], y) && Agrees(chama, after, later[x][y])
        ensures Standing(after, tables[x][y].source) == Standing(txs, tables[x][y].source)
      {
        assert later[x][y] == tables[x][y];
        ReversalKeepsOthers(accounts, chama, txs, e, tables[x][y]);
      }
      var id := Find(txs, e.source).value;
      BalanceAfterAppend(txs, ReversalOf(chama, txs, id, e.undo), account);
      MirroredNetsToZero(txs[id].lines, account);
    }
    StoredRowsExist(chama, txs, after, kinds, tables, later, i, j);
    LedgerViewMoves(txs, after, tables, later, account, i, j);
  }

  /** A commit that touches no money: a status moves, or a row appears that does not count yet. */
  lemma QuietCommit(
      accounts: set<Account>, chama: nat, txs: seq<Transaction>, kinds: seq<SourceType>,
      tables: seq<seq<Entry>>, later: seq<seq<Entry>>, i: nat, j: nat, account: Account)
    requires OneChama(accounts, chama, txs) && AllAgree(chama, txs, kinds, tables) && OnlyRow(tables, later, i, j)
    requires later[i][j].source == Source(kinds[i], j) && kinds[i] != LedgerReversal
    requires if j < |tables[i]| then later[i][j].counts == tables[i][j].counts else !later[i][j].counts
    ensures AllAgree(chama, txs, kinds, later)
    ensures LedgerView(txs, later, account) == LedgerView(txs, tables, account)
  {
    ReversalsAreMarked(accounts, txs);
    forall x, y | 0 <= x < |later| && 0 <= y < |later[x]|
      ensures later[x][y].source == Source(kinds[x], y) && Agrees(chama, txs, later[x][y])
    {
      if !(x == i && y == j) || j < |tables[i]| {
        assert Agrees(chama, txs, tables[x][y]);
      }
    }
    LedgerViewMoves(txs, txs, tables, later, account, i, j);
  }

  /** A row that does not exist yet has no posting. */
  lemma NewRowIsUnposted(
      accounts: set<Account>, chama: nat, txs: seq<Transaction>, kinds: seq<SourceType>, tables: seq<seq<Entry>>, i: nat)
    requires OneChama(accounts, chama, txs) && AllAgree(chama, txs, kinds, tables) && i < |tables|
    requires kinds[i] != LedgerReversal
    ensures Find(txs, Source(kinds[i], |tables[i]|)).None?
  {
  }
}
