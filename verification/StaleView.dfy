/**
 A run of the production session, whose queries do not see unflushed statuses: one member saves 600.00,
 borrows it, repays 630.00 and has the repayment reversed. The loan stays REPAID while it owes everything.
 */
module StaleView {
  import opened Wrappers
  import opened Money
  import opened Calendar
  import opened Ledger
  import opened Tally
  import opened Subledger
  import opened Books
  import opened Reconciliation
  import opened Runs
  import opened Guarantees

  const TODAY := Date(2024, 1, 31)

  function Recorded(): Books {
    Opened(0, DEFAULT_PRICE).(contributions := [Contribution(0, 60000, 1, Pending)])
  }

  function Saved(): Books {
    var c := Contribution(0, 60000, 1, Confirmed);
    Opened(0, DEFAULT_PRICE).(
      contributions := [c], shares := [Share(0, 0, 60000, true)], txs := [PostingOf(0, ContributionEntry(0, 0, c))])
  }

  function Lent(status: LoanStatus): Loan {
    Loan(0, 60000, LOAN_RATE, 12, status, None, None)
  }

  function Lending(status: LoanStatus): Books {
    Saved().(loans := [Lent(status)])
  }

  function TakenOut(status: LoanStatus): Loan {
    Lent(status).(disbursedOn := Some(TODAY), maturesOn := Some(AddMonths(TODAY, 12)))
  }

  function PaidOut(): Books {
    Saved().(loans := [TakenOut(Disbursed)], txs := Saved().txs + [PostingOf(0, LoanEntry(0, 0, TakenOut(Disbursed)))])
  }

  function Row(confirmed: bool): Repayment {
    Repayment(0, 63000, 60000, 3000, confirmed)
  }

  function PaidBackInFull(): Books {
    PaidOut().(loans := [TakenOut(Repaid)], repayments := [Row(true)],
               txs := PaidOut().txs + [PostingOf(0, RepaymentEntry(0, 0, Row(true)))])
  }

  lemma SavedFunds()
    ensures MemberShareValue(Saved(), 0) == 60000 && Cash(Saved()) == 60000
  {
    var b := Saved();
    assert b.txs[..0] == [] && UnitItems(b.shares)[..0] == [];
    NetOfPair(Debit(0, CASH, 60000), Credit(0, SHARE_CAPITAL, 60000), Account(0, CASH));
    assert In(UnitItems(b.shares), 0) == 60000;
    UnitsExactAtDefaultPrice(60000);
  }

  /** How the run reaches a disbursed loan, from an empty database. */
  lemma TheMemberSaves()
    ensures RecordContribution(Opened(0, DEFAULT_PRICE), 0, 60000, 1) == (Recorded(), Done)
    ensures Settle(Recorded(), 0, false) == (Saved(), Done)
  {
    UnitsExactAtDefaultPrice(60000);
    assert RecordContribution(Opened(0, DEFAULT_PRICE), 0, 60000, 1).0.contributions == Recorded().contributions;
    var settled, saved := Settle(Recorded(), 0, false).0, Saved();
    assert settled.contributions == saved.contributions && settled.shares == saved.shares && settled.txs == saved.txs;
  }

  lemma TheLoanIsApproved()
    ensures ApplyForLoan(Saved(), 0, 60000, 12, true) == (Lending(Draft), Done)
    ensures MoveLoan(Lending(Draft), 0, Submitted) == (Lending(Submitted), Done)
    ensures MoveLoan(Lending(Submitted), 0, Approved) == (Lending(Approved), Done)
  {
    SavedFunds();
    assert Saved().loans + [Lent(Draft)] == [Lent(Draft)];
    assert [Lent(Draft)][0 := Lent(Submitted)] == [Lent(Submitted)];
    assert [Lent(Submitted)][0 := Lent(Approved)] == [Lent(Approved)];
  }

  lemma TheLoanIsDisbursed()
    ensures Disburse(Lending(Approved), 0, TODAY) == (PaidOut(), Done)
  {
    SavedFunds();
    assert [Lent(Approved)][0 := TakenOut(Disbursed)] == [TakenOut(Disbursed)];
  }

  lemma NothingPaid(rows: seq<Repayment>)
    requires rows == [] || rows == [Row(false)]
    ensures PaidPrincipal(rows, 0) == 0 && PaidInterest(rows, 0) == 0
  {
    InAbsentGroup(PrincipalItems(rows), 0);
    InAbsentGroup(InterestItems(rows), 0);
  }

  lemma OwesThreeThousand(loan: Loan)
    requires loan.principal == 60000 && loan.rate == LOAN_RATE
    ensures Interest(loan) == 3000
  {
  }

  lemma TheLoanIsRepaid()
    ensures RecordRepayment(PaidOut(), 0, 63000) == (PaidBackInFull(), Done)
  {
    OwesThreeThousand(TakenOut(Disbursed));
    NothingPaid([]);
    assert [] + [Row(true)] == [Row(true)];
    var after, repaid := RecordRepayment(PaidOut(), 0, 63000).0, PaidBackInFull();
    assert after.repayments == repaid.repayments && after.loans == repaid.loans && after.txs == repaid.txs;
  }

  lemma TheRepaymentIsReversed(view: Visibility)
    ensures var (b, outcome) := ReverseRepayment(PaidBackInFull(), 0, 0, view, false);
            && outcome == Done && b.repayments == [Row(false)]
            && b.loans == [TakenOut(if view == Flushed then Disbursed else Repaid)]
  {
    OwesThreeThousand(TakenOut(Repaid));
    NothingPaid([]);
    NothingPaid([Row(false)]);
    PaidAfterPush([], Row(true), 0);
    assert [] + [Row(true)] == [Row(true)];
    assert [Row(true)][0 := Row(false)] == [Row(false)];
  }

  /** The reversal of that repayment: DISBURSED when queries see the flushed status, REPAID when they do not. */
  lemma StaleViewBreaksTheStatus(view: Visibility)
    ensures var (b, outcome) := ReverseRepayment(PaidBackInFull(), 0, 0, view, false);
            && outcome == Done && SoundTerms(b.loans) && |b.loans| == 1
            && b.loans[0].status == (if view == Flushed then Disbursed else Repaid)
            && b.loans[0].principal + Interest(b.loans[0]) == 63000
            && PaidPrincipal(b.repayments, 0) + PaidInterest(b.repayments, 0) == 0
            && (StatusTrue(b) <==> view == Flushed)
  {
    TheRepaymentIsReversed(view);
    OwesThreeThousand(TakenOut(if view == Flushed then Disbursed else Repaid));
    NothingPaid([Row(false)]);
  }

  // ----- the deposit comes back after it was lent -----------------------------------------------

  const SAVE: seq<Op> := [DoRecord(0, 60000, 1)] + [DoSettle(0, false)]
  const ASK: seq<Op> := SAVE + [DoApply(0, 60000, 12, true)]
  const AGREE: seq<Op> := ASK + [DoMoveLoan(0, Submitted)] + [DoMoveLoan(0, Approved)]
  const BORROW: seq<Op> := AGREE + [DoDisburse(0, TODAY)]

  lemma TheSavingsAreReached()
    ensures RunFromEmpty(0, DEFAULT_PRICE, SAVE) == Saved()
  {
    TheMemberSaves();
    assert [] + [DoRecord(0, 60000, 1)] == [DoRecord(0, 60000, 1)];
    RunOneMore(Opened(0, DEFAULT_PRICE), [], DoRecord(0, 60000, 1));
    RunOneMore(Opened(0, DEFAULT_PRICE), [DoRecord(0, 60000, 1)], DoSettle(0, false));
  }

  lemma TheApprovalIsReached()
    ensures RunFromEmpty(0, DEFAULT_PRICE, AGREE) == Lending(Approved)
  {
    TheSavingsAreReached();
    TheLoanIsApproved();
    RunOneMore(Opened(0, DEFAULT_PRICE), SAVE, DoApply(0, 60000, 12, true));
    RunOneMore(Opened(0, DEFAULT_PRICE), ASK, DoMoveLoan(0, Submitted));
    RunOneMore(Opened(0, DEFAULT_PRICE), ASK + [DoMoveLoan(0, Submitted)], DoMoveLoan(0, Approved));
  }

  lemma TheLoanIsReached()
    ensures RunFromEmpty(0, DEFAULT_PRICE, BORROW) == PaidOut()
  {
    TheApprovalIsReached();
    TheLoanIsDisbursed();
    RunOneMore(Opened(0, DEFAULT_PRICE), AGREE, DoDisburse(0, TODAY));
  }

  const OVERDRAW: seq<Op> := BORROW + [DoReverseContribution(0)]

  lemma TheReversalIsReached()
    ensures RunFromEmpty(0, DEFAULT_PRICE, OVERDRAW) == ReverseContribution(PaidOut(), 0).0
  {
    TheLoanIsReached();
    RunOneMore(Opened(0, DEFAULT_PRICE), BORROW, DoReverseContribution(0));
  }

  /** Reversing the contribution that paid for the loan is accepted, and leaves cash 600.00 below zero. */
  lemma ReversedDepositOverdrawsCash()
    ensures ReverseContribution(PaidOut(), 0).1 == Done
    ensures Cash(RunFromEmpty(0, DEFAULT_PRICE, OVERDRAW)) == -60000
  {
    TheReversalIsReached();
    TheReversalIsStored();
  }

  lemma TheReversalIsStored()
    ensures ReverseContribution(PaidOut(), 0).1 == Done && Cash(ReverseContribution(PaidOut(), 0).0) == -60000
  {
    var txs := PaidOut().txs;
    var entry := ContributionEntry(0, 0, Saved().contributions[0]);
    var cash := Account(0, CASH);
    SavedFunds();
    FindAfterAppend([], txs[0], entry.source);
    FindAfterAppend(Saved().txs, txs[1], entry.source);
    FindAfterAppend([], txs[0], Source(LedgerReversal, 0));
    FindAfterAppend(Saved().txs, txs[1], Source(LedgerReversal, 0));
    assert [] + [txs[0]] == Saved().txs && Saved().txs + [txs[1]] == txs;
    var reversal := ReversalOf(0, txs, 0, entry.undo);
    BalanceAfterAppend(Saved().txs, txs[1], cash);
    BalanceAfterAppend(txs, reversal, cash);
    NetOfPair(Debit(0, CASH, 60000), Credit(0, SHARE_CAPITAL, 60000), cash);
    NetOfPair(Debit(0, LOANS_RECEIVABLE, 60000), Credit(0, CASH, 60000), cash);
    MirroredNetsToZero(txs[0].lines, cash);
  }
}
