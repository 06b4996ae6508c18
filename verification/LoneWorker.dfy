/**
 A worker of the cash lock that nobody disturbs does what the books' operation does: what is proved of racing workers
 and what is proved of runs of the books is about the same disbursement and the same completion.
 */
module LoneWorkers {
  import opened Wrappers
  import opened Calendar
  import opened Ledger
  import opened Subledger
  import opened Books
  import opened Reconciliation
  import opened Database
  import L = CashLock

  function Alone(chama: nat, txs: seq<Transaction>, row: L.Row): L.World {
    L.World(chama, txs, [row], [L.Worker(0, L.Arrived)], None)
  }

  const TURN := L.Work(0)
  const TURNS: seq<L.Action> := [TURN, TURN, TURN, TURN, TURN]

  lemma FiveTurns(w: L.World)
    ensures L.Run(w, TURNS) == L.Step(L.Step(L.Step(L.Step(L.Step(w, TURN), TURN), TURN), TURN), TURN)
  {
    assert TURNS[..4] == [TURN, TURN, TURN, TURN] && TURNS[..4][..3] == [TURN, TURN, TURN];
    assert [TURN, TURN, TURN][..2] == [TURN, TURN] && [TURN, TURN][..1] == [TURN] && [TURN][..0] == [];
    assert L.Run(w, [TURN]) == L.Step(w, TURN);
    assert L.Run(w, [TURN, TURN]) == L.Step(L.Run(w, [TURN]), TURN);
    assert L.Run(w, [TURN, TURN, TURN]) == L.Step(L.Run(w, [TURN, TURN]), TURN);
  }

  /** What the row may do at all: be answered with its posting, or make it. */
  ghost predicate Ready(chama: nat, txs: seq<Transaction>, row: L.Row) {
    var e := L.Withdrawal(chama, row);
    && (row.status == L.Finished ==> Find(txs, e.source).Some?)
    && (row.status == L.Eligible ==> Postable(chama, txs, e))
  }

  /** The phase an undisturbed worker has reached after n turns, once it is past its first look at the row. */
  function Reached(w: L.World, phase: L.Phase): L.World
    requires |w.workers| == 1
  {
    w.(workers := [w.workers[0].(phase := phase)], holder := if L.InLock(phase) then Some(0) else None)
  }

  lemma ReadsItsRow(chama: nat, txs: seq<Transaction>, row: L.Row)
    requires Ready(chama, txs, row)
    ensures L.Step(Alone(chama, txs, row), TURN)
            == Reached(Alone(chama, txs, row),
                       if row.status == L.Finished then L.Answered(Find(txs, L.Withdrawal(chama, row).source).value)
                       else L.RowRead(row.status))
  {
  }

  lemma TakesTheLock(chama: nat, txs: seq<Transaction>, row: L.Row, seen: L.Seen)
    ensures L.Step(Reached(Alone(chama, txs, row), L.RowRead(seen)), TURN) == Reached(Alone(chama, txs, row), L.Locked(seen))
    ensures L.Step(Reached(Alone(chama, txs, row), L.Locked(seen)), TURN)
            == Reached(Alone(chama, txs, row),
                       if seen == L.Eligible then L.CashRead(Balance(txs, Account(chama, CASH))) else L.Raised)
  {
  }

  lemma ComparesCash(chama: nat, txs: seq<Transaction>, row: L.Row, cash: int)
    ensures L.Step(Reached(Alone(chama, txs, row), L.CashRead(cash)), TURN)
            == Reached(Alone(chama, txs, row), if row.amount > cash then L.Raised else L.Admitted(cash))
  {
  }

  lemma Posts(chama: nat, txs: seq<Transaction>, row: L.Row, cash: int)
    requires Postable(chama, txs, L.Withdrawal(chama, row))
    ensures L.Step(Reached(Alone(chama, txs, row), L.Admitted(cash)), TURN)
            == Reached(Alone(chama, txs + [PostingOf(chama, L.Withdrawal(chama, row))], row.(status := L.Finished)), L.Answered(|txs|))
  {
    CanonicalPostIsStored(chama, txs, L.Withdrawal(chama, row));
    assert [row][0 := row.(status := L.Finished)] == [row.(status := L.Finished)];
  }

  lemma Rests(chama: nat, txs: seq<Transaction>, row: L.Row, phase: L.Phase)
    requires phase.Raised? || phase.Answered?
    ensures L.Step(Reached(Alone(chama, txs, row), phase), TURN) == Reached(Alone(chama, txs, row), phase)
  {
  }

  /** Whether an undisturbed worker pays out. */
  predicate Pays(chama: nat, txs: seq<Transaction>, row: L.Row) {
    row.status == L.Eligible && row.amount <= Balance(txs, Account(chama, CASH))
  }

  lemma UndisturbedWorker(chama: nat, txs: seq<Transaction>, row: L.Row)
    requires Ready(chama, txs, row)
    ensures var end := L.Run(Alone(chama, txs, row), TURNS);
            var e := L.Withdrawal(chama, row);
            && |end.workers| == 1 && end.holder.None?
            && end.txs == (if Pays(chama, txs, row) then txs + [PostingOf(chama, e)] else txs)
            && end.rows == [if Pays(chama, txs, row) then row.(status := L.Finished) else row]
            && (end.workers[0].phase.Answered? <==> Pays(chama, txs, row) || row.status == L.Finished)
  {
    FiveTurns(Alone(chama, txs, row));
    ReadsItsRow(chama, txs, row);
    if row.status == L.Finished {
      Rests(chama, txs, row, L.Answered(Find(txs, L.Withdrawal(chama, row).source).value));
    } else {
      var cash := Balance(txs, Account(chama, CASH));
      TakesTheLock(chama, txs, row, row.status);
      Rests(chama, txs, row, L.Raised);
      if row.status == L.Eligible {
        ComparesCash(chama, txs, row, cash);
        if row.amount <= cash {
          Posts(chama, txs, row, cash);
        }
      }
    }
  }

  // ----- loans and payouts ----------------------------------------------------------------------

  function LoanRowOf(b: Books, l: nat): L.Row
    requires l < |b.loans|
  {
    L.LoanRow(l, b.loans[l].principal,
              match b.loans[l].status case Approved => L.Eligible case Disbursed => L.Finished case _ => L.Elsewhere)
  }

  function PayoutRowOf(b: Books, p: nat): L.Row
    requires p < |b.payouts|
  {
    L.PayoutRow(p, b.payouts[p].amount,
                match b.payouts[p].status case Processing => L.Eligible case Completed => L.Finished case _ => L.Elsewhere)
  }

  /** An undisturbed disbursement of racing workers is the books' disbursement. */
  lemma LoneDisbursement(b: Books, l: nat, today: Date)
    requires l < |b.loans| && SoundTerms(b.loans) && LoansOk(b.txs, b.loans)
    ensures var end := L.Run(Alone(b.chama, b.txs, LoanRowOf(b, l)), TURNS);
            var (after, outcome) := Disburse(b, l, today);
            && end.txs == after.txs && |after.loans| == |b.loans| && end.rows == [LoanRowOf(after, l)]
            && |end.workers| == 1 && (end.workers[0].phase.Answered? <==> outcome == Done)
  {
    PairIsBalanced(b.chama, LOANS_RECEIVABLE, CASH, b.loans[l].principal);
    UndisturbedWorker(b.chama, b.txs, LoanRowOf(b, l));
  }

  /** An undisturbed completion of racing workers is the books' completion. */
  lemma LoneCompletion(b: Books, p: nat)
    requires p < |b.payouts| && PayoutsOk(b.txs, b.payouts)
    ensures var end := L.Run(Alone(b.chama, b.txs, PayoutRowOf(b, p)), TURNS);
            var (after, outcome) := CompletePayout(b, p);
            && end.txs == after.txs && |after.payouts| == |b.payouts| && end.rows == [PayoutRowOf(after, p)]
            && |end.workers| == 1 && (end.workers[0].phase.Answered? <==> outcome == Done)
  {
    PairIsBalanced(b.chama, SHARE_CAPITAL, CASH, b.payouts[p].amount);
    UndisturbedWorker(b.chama, b.txs, PayoutRowOf(b, p));
  }
}
