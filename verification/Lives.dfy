/**
 The lives of loans, payouts and contributions. Over every run, the statuses that a row goes through are the beginning
 of one of a few lives: no loan is paid out that was not submitted and approved, no payout completed that was not
 approved and processed, and nothing final ever changes.
 */
module Lives {
  import opened Wrappers
  import opened Ledger
  import opened Subledger
  import opened Books
  import opened Reconciliation
  import opened Runs
  import G = Guarantees

  // ----- lives in general -----------------------------------------------------------------------

  /** Later in some life, directly after. */
  ghost predicate Follows<T>(lives: seq<seq<T>>, old_: T, new_: T) {
    exists k, i :: 0 <= k < |lives| && 0 <= i < |lives[k]| - 1 && lives[k][i] == old_ && lives[k][i + 1] == new_
  }

  ghost predicate BeginsALife<T(!new)>(lives: seq<seq<T>>, path: seq<T>) {
    exists k :: 0 <= k < |lives| && path <= lives[k]
  }

  /** Lives are told apart by their statuses: the same status is reached in one way only. */
  ghost predicate OneWay<T(!new)>(lives: seq<seq<T>>) {
    forall j, k, i, n ::
      0 <= j < |lives| && 0 <= k < |lives| && 0 <= i < |lives[j]| && 0 <= n < |lives[k]| && lives[j][i] == lives[k][n] ==>
        i == n && lives[j][..i] == lives[k][..n]
  }

  /** The statuses that were seen one after the other, without repetitions; None is a row that does not exist yet. */
  function Path<T(==)>(seen: seq<Option<T>>): seq<T> {
    if seen == [] then []
    else
      var front := Path(seen[..|seen| - 1]);
      match seen[|seen| - 1]
      case None => front
      case Some(s) => if front != [] && front[|front| - 1] == s then front else front + [s]
  }

  /** A row appears with the first status, keeps its status, or moves to one that follows. */
  ghost predicate Moves<T(!new)>(lives: seq<seq<T>>, old_: Option<T>, new_: Option<T>) {
    match old_
    case None => new_.None? || (lives != [] && lives[0] != [] && new_.value == lives[0][0])
    case Some(s) => new_.Some? && (new_.value == s || Follows(lives, s, new_.value))
  }

  lemma LifeGoesOn<T(!new)>(lives: seq<seq<T>>, path: seq<T>, next: T)
    requires OneWay(lives) && path != [] && BeginsALife(lives, path) && Follows(lives, path[|path| - 1], next)
    ensures BeginsALife(lives, path + [next])
  {
    var k :| 0 <= k < |lives| && path <= lives[k];
    var j, i :| 0 <= j < |lives| && 0 <= i < |lives[j]| - 1 && lives[j][i] == path[|path| - 1] && lives[j][i + 1] == next;
    SameWay(lives, j, k, i, |path| - 1);
    assert path == lives[k][..|path| - 1] + [path[|path| - 1]];
    assert lives[j][..i + 2] == lives[j][..i] + [lives[j][i]] + [next];
    assert path + [next] == lives[j][..i + 2];
  }

  lemma SameWay<T(!new)>(lives: seq<seq<T>>, j: nat, k: nat, i: nat, n: nat)
    requires OneWay(lives) && j < |lives| && k < |lives| && i < |lives[j]| && n < |lives[k]| && lives[j][i] == lives[k][n]
    ensures i == n && lives[j][..i] == lives[k][..n]
  {
  }

  lemma {:induction false} MovesMakeALife<T(!new)>(lives: seq<seq<T>>, seen: seq<Option<T>>)
    requires OneWay(lives) && lives != [] && seen != [] && seen[0].None?
    requires forall i :: 0 <= i < |seen| - 1 ==> Moves(lives, seen[i], seen[i + 1])
    ensures BeginsALife(lives, Path(seen))
    ensures match seen[|seen| - 1]
            case None => Path(seen) == []
            case Some(s) => Path(seen) != [] && Path(seen)[|Path(seen)| - 1] == s
  {
    var n := |seen| - 1;
    if n == 0 {
      assert Path(seen[..0]) == [] && [] <= lives[0];
    } else {
      MovesMakeALife(lives, seen[..n]);
      assert Moves(lives, seen[n - 1], seen[n]);
      var front := Path(seen[..n]);
      if seen[n].Some? && front != [] && front[|front| - 1] != seen[n].value {
        LifeGoesOn(lives, front, seen[n].value);
      } else if front == [] && seen[n].Some? {
        assert front + [seen[n].value] <= lives[0];
      }
    }
  }

  // ----- payouts --------------------------------------------------------------------------------

  const PAYOUT_LIVES: seq<seq<PayoutStatus>> := [
    [Requested, Granted, Processing, Completed, PaidBack],
    [Requested, Granted, Processing, PayoutStatus.Failed],
    [Requested, Declined]]

  function PayoutAt(b: Books, p: nat): Option<PayoutStatus> {
    if p < |b.payouts| then Some(b.payouts[p].status) else None
  }

  /** The statuses of payout p before a run and after each of its operations. */
  function PayoutSeen(b: Books, ops: seq<Op>, p: nat): (seen: seq<Option<PayoutStatus>>)
    requires Usable(b)
    ensures |seen| == |ops| + 1
  {
    seq(|ops| + 1, i requires 0 <= i <= |ops| => PayoutAt(Run(b, ops[..i]), p))
  }

  lemma PayoutLivesDiffer()
    ensures OneWay(PAYOUT_LIVES)
  {
  }

  lemma PayoutSteps()
    ensures Follows(PAYOUT_LIVES, Requested, Granted) && Follows(PAYOUT_LIVES, Requested, Declined)
    ensures Follows(PAYOUT_LIVES, Granted, Processing) && Follows(PAYOUT_LIVES, Processing, PayoutStatus.Failed)
    ensures Follows(PAYOUT_LIVES, Processing, Completed) && Follows(PAYOUT_LIVES, Completed, PaidBack)
  {
    assert PAYOUT_LIVES[0][0] == Requested && PAYOUT_LIVES[0][0 + 1] == Granted;
    assert PAYOUT_LIVES[0][1] == Granted && PAYOUT_LIVES[0][1 + 1] == Processing;
    assert PAYOUT_LIVES[0][2] == Processing && PAYOUT_LIVES[0][2 + 1] == Completed;
    assert PAYOUT_LIVES[0][3] == Completed && PAYOUT_LIVES[0][3 + 1] == PaidBack;
    assert PAYOUT_LIVES[1][2] == Processing && PAYOUT_LIVES[1][2 + 1] == PayoutStatus.Failed;
    assert PAYOUT_LIVES[2][0] == Requested && PAYOUT_LIVES[2][0 + 1] == Declined;
  }

  predicate PayoutNext(old_: PayoutStatus, new_: PayoutStatus) {
    match old_
    case Requested => new_ == Granted || new_ == Declined
    case Granted => new_ == Processing
    case Processing => new_ == Completed || new_ == PayoutStatus.Failed
    case Completed => new_ == PaidBack
    case _ => false
  }

  lemma PayoutPair(k: nat, i: nat)
    requires k < |PAYOUT_LIVES| && i < |PAYOUT_LIVES[k]| - 1
    ensures PayoutNext(PAYOUT_LIVES[k][i], PAYOUT_LIVES[k][i + 1])
  {
    if k == 0 {
      assert i in {0, 1, 2, 3};
    } else if k == 1 {
      assert i in {0, 1, 2};
    } else {
      assert k == 2 && i == 0;
    }
  }

  lemma PayoutFollows(old_: PayoutStatus, new_: PayoutStatus)
    ensures Follows(PAYOUT_LIVES, old_, new_) <==> PayoutNext(old_, new_)
  {
    if PayoutNext(old_, new_) {
      PayoutSteps();
    } else if Follows(PAYOUT_LIVES, old_, new_) {
      var k, i :| 0 <= k < |PAYOUT_LIVES| && 0 <= i < |PAYOUT_LIVES[k]| - 1
        && PAYOUT_LIVES[k][i] == old_ && PAYOUT_LIVES[k][i + 1] == new_;
      PayoutPair(k, i);
    }
  }

  /** A transition request is accepted exactly when its status follows; COMPLETED and REVERSED have requests of their own. */
  lemma PayoutMovesIff(b: Books, p: nat, to: PayoutStatus)
    requires p < |b.payouts|
    ensures MovePayout(b, p, to).1 == Done <==>
            Follows(PAYOUT_LIVES, b.payouts[p].status, to) && to != Completed && to != PaidBack
    ensures MovePayout(b, p, to).1 == Done ==> MovePayout(b, p, to).0 == b.(payouts := b.payouts[p := b.payouts[p].(status := to)])
  {
    PayoutFollows(b.payouts[p].status, to);
  }

  lemma PayoutStep(b: Books, op: Op, p: nat)
    requires Usable(b)
    ensures var before, after := PayoutAt(b, p), PayoutAt(Perform(b, op).0, p);
            match before
            case None => after.None? || after.value == Requested
            case Some(s) => after.Some? && (after.value == s || PayoutNext(s, after.value))
  {
  }

  lemma OperationMovesPayout(b: Books, op: Op, p: nat)
    requires Usable(b)
    ensures Moves(PAYOUT_LIVES, PayoutAt(b, p), PayoutAt(Perform(b, op).0, p))
  {
    PayoutStep(b, op, p);
    if p < |b.payouts| {
      PayoutFollows(PayoutAt(b, p).value, PayoutAt(Perform(b, op).0, p).value);
    }
  }

  /** Over every run from the empty database the statuses of a payout begin one of its three lives. */
  lemma EveryPayoutBeginsALife(chama: nat, price: int, ops: seq<Op>, p: nat)
    requires price > 0
    ensures BeginsALife(PAYOUT_LIVES, Path(PayoutSeen(Opened(chama, price), ops, p)))
    ensures var path := Path(PayoutSeen(Opened(chama, price), ops, p));
            var b := RunFromEmpty(chama, price, ops);
            p < |b.payouts| ==> path != [] && path[|path| - 1] == b.payouts[p].status
  {
    var b := Opened(chama, price);
    var seen := PayoutSeen(b, ops, p);
    PayoutLivesDiffer();
    forall i | 0 <= i < |seen| - 1 ensures Moves(PAYOUT_LIVES, seen[i], seen[i + 1]) {
      assert ops[..i + 1][..i] == ops[..i];
      OperationMovesPayout(Run(b, ops[..i]), ops[i], p);
    }
    MovesMakeALife(PAYOUT_LIVES, seen);
    assert ops[..|ops|] == ops;
  }

  // ----- loans ----------------------------------------------------------------------------------

  /** Once a loan is out, repayments and their reversals move it between three statuses; here it is DISBURSED. */
  const LOAN_LIVES: seq<seq<LoanStatus>> := [
    [Draft, Submitted, Approved, Disbursed],
    [Draft, Submitted, Approved, Cancelled],
    [Draft, Submitted, Rejected]]

  function StageOf(status: LoanStatus): LoanStatus {
    if Out(status) then Disbursed else status
  }

  function LoanAt(b: Books, l: nat): Option<LoanStatus> {
    if l < |b.loans| then Some(StageOf(b.loans[l].status)) else None
  }

  function LoanSeen(b: Books, ops: seq<Op>, l: nat): (seen: seq<Option<LoanStatus>>)
    requires Usable(b)
    ensures |seen| == |ops| + 1
  {
    seq(|ops| + 1, i requires 0 <= i <= |ops| => LoanAt(Run(b, ops[..i]), l))
  }

  lemma LoanLivesDiffer()
    ensures OneWay(LOAN_LIVES)
  {
  }

  lemma LoanSteps()
    ensures Follows(LOAN_LIVES, Draft, Submitted) && Follows(LOAN_LIVES, Submitted, Approved)
    ensures Follows(LOAN_LIVES, Submitted, Rejected) && Follows(LOAN_LIVES, Approved, Cancelled)
    ensures Follows(LOAN_LIVES, Approved, Disbursed)
  {
    assert LOAN_LIVES[0][0] == Draft && LOAN_LIVES[0][0 + 1] == Submitted;
    assert LOAN_LIVES[0][1] == Submitted && LOAN_LIVES[0][1 + 1] == Approved;
    assert LOAN_LIVES[0][2] == Approved && LOAN_LIVES[0][2 + 1] == Disbursed;
    assert LOAN_LIVES[1][2] == Approved && LOAN_LIVES[1][2 + 1] == Cancelled;
    assert LOAN_LIVES[2][1] == Submitted && LOAN_LIVES[2][1 + 1] == Rejected;
  }

  predicate LoanNext(old_: LoanStatus, new_: LoanStatus) {
    match old_
    case Draft => new_ == Submitted
    case Submitted => new_ == Approved || new_ == Rejected
    case Approved => new_ == Disbursed || new_ == Cancelled
    case _ => false
  }

  lemma LoanPair(k: nat, i: nat)
    requires k < |LOAN_LIVES| && i < |LOAN_LIVES[k]| - 1
    ensures LoanNext(LOAN_LIVES[k][i], LOAN_LIVES[k][i + 1])
  {
    if k == 2 {
      assert i in {0, 1};
    } else {
      assert k in {0, 1} && i in {0, 1, 2};
    }
  }

  lemma LoanFollows(old_: LoanStatus, new_: LoanStatus)
    ensures Follows(LOAN_LIVES, old_, new_) <==> LoanNext(old_, new_)
  {
    if LoanNext(old_, new_) {
      LoanSteps();
    } else if Follows(LOAN_LIVES, old_, new_) {
      var k, i :| 0 <= k < |LOAN_LIVES| && 0 <= i < |LOAN_LIVES[k]| - 1
        && LOAN_LIVES[k][i] == old_ && LOAN_LIVES[k][i + 1] == new_;
      LoanPair(k, i);
    }
  }

  /** A transition request is accepted exactly when its status follows; disbursement has a request of its own. */
  lemma LoanMovesIff(b: Books, l: nat, to: LoanStatus)
    requires l < |b.loans|
    ensures MoveLoan(b, l, to).1 == Done <==> Follows(LOAN_LIVES, b.loans[l].status, to) && to != Disbursed
    ensures MoveLoan(b, l, to).1 == Done ==> MoveLoan(b, l, to).0 == b.(loans := b.loans[l := b.loans[l].(status := to)])
  {
    LoanFollows(b.loans[l].status, to);
  }

  predicate LoanStepsTo(before: Option<LoanStatus>, after: Option<LoanStatus>) {
    match before
    case None => after.None? || after.value == Draft
    case Some(s) => after.Some? && (after.value == s || LoanNext(s, after.value))
  }

  lemma LendingStep(b: Books, op: Op, l: nat)
    requires Usable(b) && RepaymentsOk(b.txs, b.loans, b.repayments) && Lends(op)
    ensures LoanStepsTo(LoanAt(b, l), LoanAt(Perform(b, op).0, l))
  {
    if op.DoReverseRepayment? && op.repayment < |b.repayments| {
      assert RepaymentOk(b.loans, b.repayments[op.repayment]);
    }
  }

  lemma LoanStep(b: Books, op: Op, l: nat)
    requires Usable(b) && RepaymentsOk(b.txs, b.loans, b.repayments)
    ensures LoanStepsTo(LoanAt(b, l), LoanAt(Perform(b, op).0, l))
  {
    if Lends(op) {
      LendingStep(b, op, l);
    } else {
      G.OthersLeaveLoans(b, op);
    }
  }

  lemma OperationMovesLoan(b: Books, op: Op, l: nat)
    requires Usable(b) && RepaymentsOk(b.txs, b.loans, b.repayments)
    ensures Moves(LOAN_LIVES, LoanAt(b, l), LoanAt(Perform(b, op).0, l))
  {
    LoanStep(b, op, l);
    if l < |b.loans| {
      LoanFollows(LoanAt(b, l).value, LoanAt(Perform(b, op).0, l).value);
    }
  }

  /** Over every run from the empty database the stages of a loan begin one of its three lives. */
  lemma EveryLoanBeginsALife(chama: nat, price: int, ops: seq<Op>, l: nat)
    requires price > 0
    ensures BeginsALife(LOAN_LIVES, Path(LoanSeen(Opened(chama, price), ops, l)))
    ensures var path := Path(LoanSeen(Opened(chama, price), ops, l));
            var b := RunFromEmpty(chama, price, ops);
            l < |b.loans| ==> path != [] && path[|path| - 1] == StageOf(b.loans[l].status)
  {
    var b := Opened(chama, price);
    var seen := LoanSeen(b, ops, l);
    LoanLivesDiffer();
    forall i | 0 <= i < |seen| - 1 ensures Moves(LOAN_LIVES, seen[i], seen[i + 1]) {
      assert ops[..i + 1][..i] == ops[..i];
      SoundLoans(chama, price, ops[..i]);
      OperationMovesLoan(Run(b, ops[..i]), ops[i], l);
    }
    MovesMakeALife(LOAN_LIVES, seen);
    assert ops[..|ops|] == ops;
  }

  lemma SoundLoans(chama: nat, price: int, ops: seq<Op>)
    requires price > 0
    ensures var b := RunFromEmpty(chama, price, ops);
            RepaymentsOk(b.txs, b.loans, b.repayments)
  {
    RunFromEmptyIsSound(chama, price, ops, Account(chama, CASH));
  }

  // ----- contributions --------------------------------------------------------------------------

  const CONTRIBUTION_LIVES: seq<seq<ContributionStatus>> := [[Pending, Confirmed, Reversed]]

  function ContributionAt(b: Books, c: nat): Option<ContributionStatus> {
    if c < |b.contributions| then Some(b.contributions[c].status) else None
  }

  function ContributionSeen(b: Books, ops: seq<Op>, c: nat): (seen: seq<Option<ContributionStatus>>)
    requires Usable(b)
    ensures |seen| == |ops| + 1
  {
    seq(|ops| + 1, i requires 0 <= i <= |ops| => ContributionAt(Run(b, ops[..i]), c))
  }

  lemma OperationMovesContribution(b: Books, op: Op, c: nat)
    requires Usable(b)
    ensures Moves(CONTRIBUTION_LIVES, ContributionAt(b, c), ContributionAt(Perform(b, op).0, c))
  {
    assert CONTRIBUTION_LIVES[0][0] == Pending && CONTRIBUTION_LIVES[0][0 + 1] == Confirmed;
    assert CONTRIBUTION_LIVES[0][1] == Confirmed && CONTRIBUTION_LIVES[0][1 + 1] == Reversed;
  }

  /** Over every run from the empty database a contribution goes from PENDING to CONFIRMED to REVERSED, or part of the way. */
  lemma EveryContributionBeginsItsLife(chama: nat, price: int, ops: seq<Op>, c: nat)
    requires price > 0
    ensures BeginsALife(CONTRIBUTION_LIVES, Path(ContributionSeen(Opened(chama, price), ops, c)))
  {
    var b := Opened(chama, price);
    var seen := ContributionSeen(b, ops, c);
    forall i | 0 <= i < |seen| - 1 ensures Moves(CONTRIBUTION_LIVES, seen[i], seen[i + 1]) {
      assert ops[..i + 1][..i] == ops[..i];
      OperationMovesContribution(Run(b, ops[..i]), ops[i], c);
    }
    MovesMakeALife(CONTRIBUTION_LIVES, seen);
  }
}
