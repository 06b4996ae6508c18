/**
 Any number of disbursements and payout completions racing for one Chama's cash. A worker reads its
 row, takes the lock on the Cash account, checks the status it read, reads cash, compares, and posts and
 commits; each is a separate step. Money-in is posted and reversed by others at any time, without the lock.
 */
module CashLock {
  import opened Wrappers
  import opened Ledger
  import opened Subledger
  import opened Books
  import opened Reconciliation
  import opened Database

  /** The status of a row as a worker sees it: APPROVED or PROCESSING, DISBURSED or COMPLETED, or any other. */
  datatype Seen = Eligible | Finished | Elsewhere

  /** A loan or payout row; its amount never changes, its status may be changed by anyone. */
  datatype Row = LoanRow(id: nat, amount: int, status: Seen) | PayoutRow(id: nat, amount: int, status: Seen)

  datatype Phase =
    | Arrived
    | RowRead(seen: Seen)
    | Locked(seen: Seen)
    | CashRead(cash: int)
    | Admitted(cash: int)
    | Answered(transaction: nat)
    | Raised

  datatype Worker = Worker(row: nat, phase: Phase)

  datatype World = World(chama: nat, txs: seq<Transaction>, rows: seq<Row>, workers: seq<Worker>, holder: Option<nat>)

  datatype Action =
    | Work(worker: nat)
    | Crash(worker: nat)
    | Deposit(request: Request)
    | Reversal(id: nat, memo: Option<Memo>)
    | SetStatus(row: nat, status: Seen)

  function CashOf(chama: nat): Account {
    Account(chama, CASH)
  }

  /** The one posting a row makes; it depends on the row's id and amount only. */
  function Withdrawal(chama: nat, row: Row): Entry {
    match row
    case LoanRow(id, amount, _) => LoanEntry(chama, id, Loan(0, amount, LOAN_RATE, 12, Disbursed, None, None))
    case PayoutRow(id, amount, _) => PayoutEntry(chama, id, Payout(0, amount, Completed))
  }

  function WithdrawalRequest(chama: nat, row: Row): Request {
    var e := Withdrawal(chama, row);
    Request(chama, e.source, Some(e.memo), RawOf(e.lines), None)
  }

  // ----- steps ----------------------------------------------------------------------------------

  predicate InLock(phase: Phase) {
    phase.Locked? || phase.CashRead? || phase.Admitted?
  }

  /** The worker moves on; leaving the locked phases ends its transaction and frees the lock. */
  function Moved(w: World, i: nat, phase: Phase): (next: World)
    requires i < |w.workers|
    ensures next.chama == w.chama && |next.workers| == |w.workers|
  {
    w.(workers := w.workers[i := w.workers[i].(phase := phase)],
       holder := if InLock(phase) then Some(i) else if w.holder == Some(i) then None else w.holder)
  }

  function Finish(w: World, i: nat): (next: World)
    requires i < |w.workers| && w.workers[i].row < |w.rows|
    ensures next.chama == w.chama && |next.workers| == |w.workers|
  {
    var r := w.workers[i].row;
    var (posted, txs) := Post(Chart(w.chama), w.txs, WithdrawalRequest(w.chama, w.rows[r]));
    match posted
    case Failure(_) => Moved(w, i, Raised)
    case Success(id) => Moved(w.(txs := txs, rows := w.rows[r := w.rows[r].(status := Finished)]), i, Answered(id))
  }

  function WorkerStep(w: World, i: nat): (next: World)
    requires i < |w.workers| && w.workers[i].row < |w.rows|
    ensures next.chama == w.chama && |next.workers| == |w.workers|
  {
    var row := w.rows[w.workers[i].row];
    match w.workers[i].phase
    case Arrived =>
      if row.status == Finished then
        var posting := Find(w.txs, Withdrawal(w.chama, row).source);
        Moved(w, i, if posting.Some? then Answered(posting.value) else Raised)
      else Moved(w, i, RowRead(row.status))
    case RowRead(seen) => if w.holder.Some? then w else Moved(w, i, Locked(seen))
    case Locked(seen) =>
      if seen != Eligible then Moved(w, i, Raised) else Moved(w, i, CashRead(Balance(w.txs, CashOf(w.chama))))
    case CashRead(cash) => if row.amount > cash then Moved(w, i, Raised) else Moved(w, i, Admitted(cash))
    case Admitted(_) => Finish(w, i)
    case _ => w
  }

  /** A request of the services that bring money in. */
  predicate BringsMoneyIn(chama: nat, q: Request) {
    && q.source.kind in {ContributionConfirmation, LoanRepayment, RegistrationFeePayment}
    && q.chama == chama
    && match Prepare(Chart(chama), q)
       case Failure(_) => true
       case Success(t) => Net(t.lines, CashOf(chama)) >= 0
  }

  function Step(w: World, action: Action): (next: World)
    ensures next.chama == w.chama && |next.workers| == |w.workers|
  {
    match action
    case Work(i) => if i < |w.workers| && w.workers[i].row < |w.rows| then WorkerStep(w, i) else w
    case Crash(i) =>
      if i < |w.workers| && !w.workers[i].phase.Answered? then Moved(w, i, Raised) else w
    case Deposit(q) => if BringsMoneyIn(w.chama, q) then w.(txs := Post(Chart(w.chama), w.txs, q).1) else w
    case Reversal(id, memo) => w.(txs := Reverse(Chart(w.chama), w.txs, w.chama, id, memo).1)
    case SetStatus(r, status) => if r < |w.rows| then w.(rows := w.rows[r := w.rows[r].(status := status)]) else w
  }

  function Run(w: World, actions: seq<Action>): (end: World)
    ensures end.chama == w.chama && |end.workers| == |w.workers|
  {
    if actions == [] then w else Step(Run(w, actions[..|actions| - 1]), actions[|actions| - 1])
  }

  // ----- what every step keeps ------------------------------------------------------------------

  /** Cash before anything that came in was taken back. */
  function GrossCash(w: World): int {
    Balance(w.txs, CashOf(w.chama)) + ReversedMoneyIn(w.txs, CashOf(w.chama))
  }

  ghost predicate RowsOk(chama: nat, rows: seq<Row>) {
    && (forall r :: 0 <= r < |rows| ==> rows[r].amount > 0)
    && (forall r, s :: 0 <= r < s < |rows| ==> Withdrawal(chama, rows[r]).source != Withdrawal(chama, rows[s]).source)
  }

  /** Whatever is stored under a row's source is that row's posting. */
  ghost predicate PostingsCanonical(chama: nat, txs: seq<Transaction>, rows: seq<Row>) {
    forall r :: 0 <= r < |rows| ==>
      var posting := Find(txs, Withdrawal(chama, rows[r]).source);
      posting.Some? ==> txs[posting.value] == PostingOf(chama, Withdrawal(chama, rows[r]))
  }

  ghost predicate WorkerOk(w: World, i: nat)
    requires i < |w.workers|
  {
    var worker := w.workers[i];
    && worker.row < |w.rows|
    && (InLock(worker.phase) <==> w.holder == Some(i))
    && match worker.phase
       case CashRead(cash) => cash <= GrossCash(w)
       case Admitted(cash) => w.rows[worker.row].amount <= cash <= GrossCash(w)
       case Answered(id) => Find(w.txs, Withdrawal(w.chama, w.rows[worker.row]).source) == Some(id)
       case _ => true
  }

  ghost predicate Safe(w: World) {
    && WellFormed(Chart(w.chama), w.txs) && RowsOk(w.chama, w.rows) && PostingsCanonical(w.chama, w.txs, w.rows)
    && (forall i :: 0 <= i < |w.workers| ==> WorkerOk(w, i))
    && (w.holder.Some? ==> w.holder.value < |w.workers|)
    && GrossCash(w) >= 0
  }

  /** Before anything is posted, with no worker inside the lock, every set of rows and workers is safe. */
  lemma OpeningIsSafe(w: World)
    requires w.txs == [] && w.holder.None? && RowsOk(w.chama, w.rows)
    requires forall i :: 0 <= i < |w.workers| ==> w.workers[i].phase.Arrived? && w.workers[i].row < |w.rows|
    ensures Safe(w)
  {
  }

  /** The ledger grew by a posting or reversal that took nothing from gross cash and posted no row. */
  ghost predicate Grew(w: World, later: World) {
    && later == w.(txs := later.txs)
    && WellFormed(Chart(w.chama), later.txs)
    && GrossCash(later) >= GrossCash(w)
    && (forall s: Source :: s.kind in {LoanDisbursement, PayoutCompletion} ==> Find(later.txs, s) == Find(w.txs, s))
    && w.txs <= later.txs
  }

  lemma GrowthKeepsSafe(w: World, later: World)
    requires Safe(w) && Grew(w, later)
    ensures Safe(later)
  {
    forall i | 0 <= i < |later.workers| ensures WorkerOk(later, i) {
      assert WorkerOk(w, i);
    }
  }

  /** One more transaction that files under no row and takes nothing from gross cash. */
  lemma AppendGrows(w: World, t: Transaction)
    requires WellFormed(Chart(w.chama), w.txs + [t]) && t.source.kind !in {LoanDisbursement, PayoutCompletion}
    requires Net(t.lines, CashOf(w.chama)) + TakenBack(t, CashOf(w.chama)) >= 0
    ensures Grew(w, w.(txs := w.txs + [t]))
  {
    GrossAfterAppend(w.txs, t, CashOf(w.chama));
    forall s: Source | s.kind in {LoanDisbursement, PayoutCompletion} ensures Find(w.txs + [t], s) == Find(w.txs, s) {
      FindAfterAppend(w.txs, t, s);
    }
  }

  lemma DepositGrows(w: World, q: Request)
    requires WellFormed(Chart(w.chama), w.txs) && BringsMoneyIn(w.chama, q)
    ensures Grew(w, w.(txs := Post(Chart(w.chama), w.txs, q).1))
  {
    PostKeepsWellFormed(Chart(w.chama), w.txs, q);
    if Post(Chart(w.chama), w.txs, q).1 != w.txs {
      AppendGrows(w, Prepare(Chart(w.chama), q).value);
    }
  }

  lemma ReversalGrows(w: World, id: nat, memo: Option<Memo>)
    requires WellFormed(Chart(w.chama), w.txs)
    ensures Grew(w, w.(txs := Reverse(Chart(w.chama), w.txs, w.chama, id, memo).1))
  {
    if Reverse(Chart(w.chama), w.txs, w.chama, id, memo).1 != w.txs {
      ReversalAppends(Chart(w.chama), w.txs, w.chama, id, memo);
      AppendGrows(w, Transaction(w.chama, Source(LedgerReversal, id), memo, Some(id), Mirrored(w.txs[id].lines)));
    }
  }

  lemma ReversalAppends(accounts: set<Account>, txs: seq<Transaction>, chama: nat, id: nat, memo: Option<Memo>)
    requires WellFormed(accounts, txs) && Reverse(accounts, txs, chama, id, memo).1 != txs
    ensures id < |txs|
    ensures var t := Transaction(chama, Source(LedgerReversal, id), memo, Some(id), Mirrored(txs[id].lines));
            Reverse(accounts, txs, chama, id, memo).1 == txs + [t] && WellFormed(accounts, txs + [t])
  {
    MirroredIsPrepared(accounts, txs, id, memo);
    PostKeepsWellFormed(accounts, txs,
      Request(chama, Source(LedgerReversal, id), memo, RawOf(Mirrored(txs[id].lines)), Some(id)));
  }

  /** A step of one worker that posts nothing. */
  lemma MoveKeepsSafe(w: World, i: nat, phase: Phase)
    requires Safe(w) && i < |w.workers|
    requires InLock(phase) ==> InLock(w.workers[i].phase) || w.holder.None?
    requires WorkerOk(Moved(w, i, phase), i)
    ensures Safe(Moved(w, i, phase))
  {
    var next := Moved(w, i, phase);
    assert WorkerOk(w, i);
    forall j | 0 <= j < |next.workers| ensures WorkerOk(next, j) {
      assert WorkerOk(w, j);
    }
  }

  lemma WithdrawalIsBalanced(chama: nat, row: Row)
    requires row.amount > 0
    ensures Balanced(Chart(chama), chama, Withdrawal(chama, row).lines)
    ensures Net(Withdrawal(chama, row).lines, CashOf(chama)) == -row.amount
  {
    var lines := Withdrawal(chama, row).lines;
    PairIsBalanced(chama, LOANS_RECEIVABLE, CASH, row.amount);
    PairIsBalanced(chama, SHARE_CAPITAL, CASH, row.amount);
    assert lines[..1][..0] == [] && Net(lines[..1], CashOf(chama)) == 0;
  }

  /** An admitted worker never meets an error: it posts the row's transaction or recognises it. */
  lemma {:induction false} AdmittedPosts(chama: nat, txs: seq<Transaction>, row: Row)
    requires row.amount > 0
    requires var posting := Find(txs, Withdrawal(chama, row).source);
             posting.Some? ==> txs[posting.value] == PostingOf(chama, Withdrawal(chama, row))
    ensures var posting := Find(txs, Withdrawal(chama, row).source);
            var (answer, after) := Post(Chart(chama), txs, WithdrawalRequest(chama, row));
            && answer == Success(if posting.Some? then posting.value else |txs|)
            && after == if posting.Some? then txs else txs + [PostingOf(chama, Withdrawal(chama, row))]
  {
    var e := Withdrawal(chama, row);
    WithdrawalIsBalanced(chama, row);
    WholeCentLinesAreKept(e.lines);
    ValidationIsExact(Chart(chama), chama, e.lines);
    assert Prepare(Chart(chama), WithdrawalRequest(chama, row)) == Success(PostingOf(chama, e));
  }

  /** Posting a row: the store stays sound, gross cash drops by the amount, only this row's source is new. */
  lemma WithdrawalStored(chama: nat, txs: seq<Transaction>, rows: seq<Row>, r: nat)
    requires WellFormed(Chart(chama), txs) && RowsOk(chama, rows) && PostingsCanonical(chama, txs, rows) && r < |rows|
    requires Find(txs, Withdrawal(chama, rows[r]).source).None?
    ensures var after := txs + [PostingOf(chama, Withdrawal(chama, rows[r]))];
            && WellFormed(Chart(chama), after) && PostingsCanonical(chama, after, rows)
            && Find(after, Withdrawal(chama, rows[r]).source) == Some(|txs|)
            && (forall s: Source :: s != Withdrawal(chama, rows[r]).source ==> Find(after, s) == Find(txs, s))
            && Balance(after, CashOf(chama)) + ReversedMoneyIn(after, CashOf(chama))
               == Balance(txs, CashOf(chama)) + ReversedMoneyIn(txs, CashOf(chama)) - rows[r].amount
  {
    var t := PostingOf(chama, Withdrawal(chama, rows[r]));
    WithdrawalIsBalanced(chama, rows[r]);
    AppendKeepsWellFormed(Chart(chama), txs, t);
    GrossAfterAppend(txs, t, CashOf(chama));
    OnlyItsSource(txs, t);
    CanonicalStays(chama, txs, rows, r);
  }

  lemma OnlyItsSource(txs: seq<Transaction>, t: Transaction)
    requires Find(txs, t.source).None?
    ensures forall s: Source :: Find(txs + [t], s) == if s == t.source then Some(|txs|) else Find(txs, s)
  {
    forall s: Source ensures Find(txs + [t], s) == if s == t.source then Some(|txs|) else Find(txs, s) {
      FindAfterAppend(txs, t, s);
    }
  }

  lemma CanonicalStays(chama: nat, txs: seq<Transaction>, rows: seq<Row>, r: nat)
    requires RowsOk(chama, rows) && PostingsCanonical(chama, txs, rows) && r < |rows|
    requires Find(txs, Withdrawal(chama, rows[r]).source).None?
    ensures PostingsCanonical(chama, txs + [PostingOf(chama, Withdrawal(chama, rows[r]))], rows)
  {
    OnlyItsSource(txs, PostingOf(chama, Withdrawal(chama, rows[r])));
  }

  lemma FinishKeepsSafe(w: World, i: nat)
    requires Safe(w) && i < |w.workers| && w.workers[i].phase.Admitted? && w.workers[i].row < |w.rows|
    ensures Safe(Finish(w, i)) && Finish(w, i).workers[i].phase.Answered?
  {
    var r := w.workers[i].row;
    assert WorkerOk(w, i);
    AdmittedPosts(w.chama, w.txs, w.rows[r]);
    if Find(w.txs, Withdrawal(w.chama, w.rows[r]).source).None? {
      WithdrawalStored(w.chama, w.txs, w.rows, r);
    }
    FinishedRows(w.chama, Finish(w, i).txs, w.rows, r);
    FinishedWorkers(w, Finish(w, i), i);
  }

  /** The other workers hold no lock, so all they rely on is that answers stay found. */
  lemma FinishedWorkers(w: World, next: World, i: nat)
    requires (forall j :: 0 <= j < |w.workers| ==> WorkerOk(w, j))
    requires i < |w.workers| && InLock(w.workers[i].phase) && w.workers[i].row < |w.rows|
    requires next.holder.None? && next.chama == w.chama && |next.rows| == |w.rows| && |next.workers| == |w.workers|
    requires forall j :: 0 <= j < |w.workers| && j != i ==> next.workers[j] == w.workers[j]
    requires next.workers[i].row == w.workers[i].row && next.workers[i].phase.Answered?
    requires forall s :: 0 <= s < |w.rows| ==> Withdrawal(w.chama, next.rows[s]) == Withdrawal(w.chama, w.rows[s])
    requires forall s: Source :: Find(w.txs, s).Some? ==> Find(next.txs, s) == Find(w.txs, s)
    requires Find(next.txs, Withdrawal(w.chama, w.rows[w.workers[i].row]).source) == Some(next.workers[i].phase.transaction)
    ensures forall j :: 0 <= j < |next.workers| ==> WorkerOk(next, j)
  {
    forall j | 0 <= j < |next.workers| ensures WorkerOk(next, j) {
      assert WorkerOk(w, j) && WorkerOk(w, i);
    }
  }

  lemma FinishedRows(chama: nat, txs: seq<Transaction>, rows: seq<Row>, r: nat, status: Seen := Finished)
    requires RowsOk(chama, rows) && PostingsCanonical(chama, txs, rows) && r < |rows|
    ensures var later := rows[r := rows[r].(status := status)];
            && RowsOk(chama, later) && PostingsCanonical(chama, txs, later)
            && forall s :: 0 <= s < |rows| ==> Withdrawal(chama, later[s]) == Withdrawal(chama, rows[s]) && later[s].amount == rows[s].amount
  {
  }

  lemma StatusKeepsSafe(w: World, r: nat, status: Seen)
    requires Safe(w) && r < |w.rows|
    ensures Safe(w.(rows := w.rows[r := w.rows[r].(status := status)]))
  {
    var next := w.(rows := w.rows[r := w.rows[r].(status := status)]);
    FinishedRows(w.chama, w.txs, w.rows, r, status);
    forall j | 0 <= j < |next.workers| ensures WorkerOk(next, j) {
      assert WorkerOk(w, j);
    }
  }

  lemma StepKeepsSafe(w: World, action: Action)
    requires Safe(w)
    ensures Safe(Step(w, action))
  {
    match action {
      case Work(i) => if i < |w.workers| { WorkKeepsSafe(w, i); }
      case Crash(i) => if i < |w.workers| && !w.workers[i].phase.Answered? { assert WorkerOk(w, i); MoveKeepsSafe(w, i, Raised); }
      case Deposit(q) => if BringsMoneyIn(w.chama, q) { DepositGrows(w, q); GrowthKeepsSafe(w, Step(w, action)); }
      case Reversal(id, memo) => ReversalGrows(w, id, memo); GrowthKeepsSafe(w, Step(w, action));
      case SetStatus(r, status) => if r < |w.rows| { StatusKeepsSafe(w, r, status); }
    }
  }

  lemma WorkKeepsSafe(w: World, i: nat)
    requires Safe(w) && i < |w.workers|
    ensures w.workers[i].row < |w.rows| && Safe(WorkerStep(w, i))
  {
    assert WorkerOk(w, i);
    var phase := w.workers[i].phase;
    if phase.Admitted? {
      FinishKeepsSafe(w, i);
    } else {
      var next := WorkerStep(w, i);
      if next != w {
        MoveKeepsSafe(w, i, next.workers[i].phase);
      }
    }
  }

  lemma {:induction false} RunKeepsSafe(w: World, actions: seq<Action>)
    requires Safe(w)
    ensures Safe(Run(w, actions))
  {
    if actions != [] {
      RunKeepsSafe(w, actions[..|actions| - 1]);
      StepKeepsSafe(Run(w, actions[..|actions| - 1]), actions[|actions| - 1]);
    }
  }

  // ----- results --------------------------------------------------------------------------------

  /**
   Under any interleaving, cash plus everything that came in and was taken back never drops below zero;
   so cash itself stays non-negative in every run in which no money-in is reversed.
   */
  lemma CashIsNeverOverspent(w: World, actions: seq<Action>)
    requires Safe(w)
    ensures var end := Run(w, actions);
            var cash := Balance(end.txs, CashOf(w.chama));
            && cash + ReversedMoneyIn(end.txs, CashOf(w.chama)) >= 0
            && (cash < 0 ==> exists k :: 0 <= k < |end.txs| && end.txs[k].reverses.Some? && Net(end.txs[k].lines, CashOf(w.chama)) < 0)
  {
    RunKeepsSafe(w, actions);
    var end := Run(w, actions);
    if Balance(end.txs, CashOf(w.chama)) < 0 {
      SomeMoneyTakenBack(end.txs, CashOf(w.chama));
    }
  }

  /** Workers that race on one loan or payout and are answered were answered with one and the same transaction. */
  lemma RacingWorkersShareOnePosting(w: World, actions: seq<Action>, i: nat, j: nat)
    requires Safe(w) && i < |w.workers| && j < |w.workers|
    requires var end := Run(w, actions);
             end.workers[i].row == end.workers[j].row
             && end.workers[i].phase.Answered? && end.workers[j].phase.Answered?
    ensures var end := Run(w, actions);
            var id := end.workers[i].phase.transaction;
            && end.workers[j].phase.transaction == id && id < |end.txs|
            && end.workers[i].row < |end.rows|
            && end.txs[id] == PostingOf(end.chama, Withdrawal(end.chama, end.rows[end.workers[i].row]))
            && forall k :: 0 <= k < |end.txs| && end.txs[k].source == end.txs[id].source ==> k == id
  {
    RunKeepsSafe(w, actions);
    var end := Run(w, actions);
    assert WorkerOk(end, i) && WorkerOk(end, j);
  }

  /** How many of its own steps a worker still needs. */
  function StepsLeft(phase: Phase): nat {
    match phase
    case Arrived => 5
    case RowRead(_) => 4
    case Locked(_) => 3
    case CashRead(_) => 2
    case Admitted(_) => 1
    case _ => 0
  }

  /** The lock never deadlocks: while a worker is unfinished, the holder or that worker gets closer to its end. */
  lemma SomeWorkerAdvances(w: World, i: nat)
    requires Safe(w) && i < |w.workers| && StepsLeft(w.workers[i].phase) > 0
    ensures var mover := if w.workers[i].phase.RowRead? && w.holder.Some? then w.holder.value else i;
            mover < |w.workers| && StepsLeft(Step(w, Work(mover)).workers[mover].phase) < StepsLeft(w.workers[mover].phase)
  {
    var mover := if w.workers[i].phase.RowRead? && w.holder.Some? then w.holder.value else i;
    assert WorkerOk(w, mover) && WorkerOk(w, i);
    if w.workers[mover].phase.Admitted? {
      FinishKeepsSafe(w, mover);
    }
  }

  /** Cash is not protected from reversals: a first reversal leaves it negative exactly when less is left than came in. */
  lemma ReversalOverdrawsIff(accounts: set<Account>, txs: seq<Transaction>, id: nat, memo: Option<Memo>, cash: Account)
    requires WellFormed(accounts, txs) && id < |txs| && txs[id].reverses.None?
    requires Find(txs, Source(LedgerReversal, id)).None? && !IsReversed(txs, id)
    ensures Balance(Reverse(accounts, txs, txs[id].chama, id, memo).1, cash) < 0 <==> Balance(txs, cash) < Net(txs[id].lines, cash)
  {
    FirstReversalCancels(accounts, txs, id, memo, cash);
  }
}
