/**
 Which requests the books accept, exactly, and what an accepted one does to cash and to its row. Shares and payouts
 enter as sums over confirmed contributions and COMPLETED payouts.
 */
module Admission {
  import opened Wrappers
  import opened Money
  import opened Calendar
  import opened Ledger
  import opened Tally
  import opened Subledger
  import opened Books
  import opened Reconciliation
  import opened Runs
  import opened Guarantees
  import opened Solvency

  /** The row that a request names does not exist. */
  predicate NamesNoRow(b: Books, op: Op) {
    match op
    case DoMoveLoan(l, _) => l >= |b.loans|
    case DoDisburse(l, _) => l >= |b.loans|
    case DoRepay(l, _) => l >= |b.loans|
    case DoReverseRepayment(l, r, _, _) => l >= |b.loans| || r >= |b.repayments| || b.repayments[r].loan != l
    case DoMovePayout(p, _) => p >= |b.payouts|
    case DoComplete(p) => p >= |b.payouts|
    case DoReversePayout(p, _) => p >= |b.payouts|
    case DoSettle(c, _) => c >= |b.contributions|
    case DoReverseContribution(c) => c >= |b.contributions|
    case DoWaive(f) => f >= |b.fees|
    case DoPay(f) => f >= |b.fees|
    case DoReverseFee(f, _) => f >= |b.fees|
    case _ => false
  }

  lemma MissingRowsAreRefused(b: Books, op: Op)
    requires Usable(b)
    ensures NamesNoRow(b, op) <==> Perform(b, op).1 == Refused(NotFound)
  {
    if op.DoReverseFee? || op.DoWaive? || op.DoPay? || op.DoOpenFee? {
      FeePerformed(b, op);
    }
  }

  /** The reason that a refusal gives holds of the request and the books. */
  ghost predicate ReasonHolds(b: Books, op: Op, why: Refusal)
    requires Usable(b)
  {
    match why
    case NotFound => NamesNoRow(b, op)
    case NotYetTenured => op.DoApply? && !op.tenured
    case AboveShareLimit => op.DoApply? && op.principal > 3 * MemberShareValue(b, op.member)
    case AboveShareValue => op.DoRequestPayout? && op.amount + CompletedTotal(b.payouts, op.member) > MemberShareValue(b, op.member)
    case AboveCash =>
      || (op.DoApply? && op.principal > Cash(b))
      || (op.DoRequestPayout? && op.amount > Cash(b))
      || (op.DoDisburse? && op.loan < |b.loans| && b.loans[op.loan].principal > Cash(b))
      || (op.DoComplete? && op.payout < |b.payouts| && b.payouts[op.payout].amount > Cash(b))
    case AboveOutstanding => op.DoRepay? && op.loan < |b.loans| && op.amount > StillOwed(b, op.loan)
    case DuplicatePeriod => op.DoRecord? && HasOpen(b.contributions, op.member, op.period)
    case ByLedger(e) => op.DoSettle? && op.contribution < |b.contributions| && b.contributions[op.contribution].amount == 0
    case WrongState => !NamesNoRow(b, op)
    case ConstraintFailed => op.DoApply? || op.DoRepay? || op.DoRequestPayout? || op.DoRecord? || op.DoOpenFee? || op.DoPay?
  }

  /** A refused request leaves the books alone and is told a reason that holds. */
  lemma RefusalsAreTrue(b: Books, op: Op)
    requires Usable(b) && Perform(b, op).1.Refused?
    ensures Perform(b, op).0 == b && ReasonHolds(b, op, Perform(b, op).1.why)
  {
    if Lends(op) {
      LendingRefusals(b, op);
    } else if ChargesFees(op) {
      FeeRefusals(b, op);
    } else {
      SavingRefusals(b, op);
    }
  }

  lemma LendingRefusals(b: Books, op: Op)
    requires Usable(b) && Lends(op) && Perform(b, op).1.Refused?
    ensures Perform(b, op).0 == b && ReasonHolds(b, op, Perform(b, op).1.why)
  {
  }

  lemma FeeRefusals(b: Books, op: Op)
    requires Usable(b) && ChargesFees(op) && Perform(b, op).1.Refused?
    ensures Perform(b, op).0 == b && ReasonHolds(b, op, Perform(b, op).1.why)
  {
    FeePerformed(b, op);
  }

  lemma SavingRefusals(b: Books, op: Op)
    requires Usable(b) && !Lends(op) && !ChargesFees(op) && Perform(b, op).1.Refused?
    ensures Perform(b, op).0 == b && ReasonHolds(b, op, Perform(b, op).1.why)
  {
  }

  // ----- what a member has saved and what was paid out to a member --------------------------------

  function Saved(b: Books, member: nat): int {
    In(ConfirmedItems(b.contributions), member)
  }

  function PaidOut(b: Books, member: nat): int {
    In(CompletedItems(b.payouts), member)
  }

  /** At the default price the value of a member's shares is what the member has saved. */
  lemma SharesAreSavings(b: Books, member: nat)
    requires Inv(b) && b.price == DEFAULT_PRICE
    ensures MemberShareValue(b, member) == Saved(b, member)
  {
    MemberShareValueFollowsContributions(b, member);
    UnitsOfConfirmed(b.contributions, b.price, member);
  }

  // ----- payouts --------------------------------------------------------------------------------

  /**
   A payout request is accepted if and only if it is positive, cash covers it, and together with everything already
   paid out to the member it stays within the value of the member's shares.
   */
  lemma PayoutAcceptedIff(b: Books, member: nat, amount: int)
    requires b.price > 0
    ensures var (after, outcome) := RequestPayout(b, member, amount);
            && (outcome == Done <==> 0 < amount <= Cash(b) && amount + PaidOut(b, member) <= MemberShareValue(b, member))
            && after == if outcome == Done then b.(payouts := b.payouts + [Payout(member, amount, Requested)]) else b
  {
  }

  /** At the default price no accepted request exceeds what the member has saved and has not been paid yet. */
  lemma PayoutWithinSavingsIff(b: Books, member: nat, amount: int)
    requires Inv(b) && b.price == DEFAULT_PRICE
    ensures RequestPayout(b, member, amount).1 == Done <==>
            0 < amount <= Cash(b) && amount + PaidOut(b, member) <= Saved(b, member)
  {
    PayoutAcceptedIff(b, member, amount);
    SharesAreSavings(b, member);
  }

  lemma PaidOutMoves(b: Books, p: nat, member: nat)
    requires p < |b.payouts| && CompletePayout(b, p).0 != b
    ensures PaidOut(CompletePayout(b, p).0, member)
            == PaidOut(b, member) + if b.payouts[p].member == member then b.payouts[p].amount else 0
  {
    InExceptAt(CompletedItems(b.payouts), CompletedItems(CompletePayout(b, p).0.payouts), member, p);
  }

  /**
   Completion looks at cash and not at shares. A completed payout leaves its member paid more than the shares are
   worth if and only if it exceeds what is available at that moment, which an earlier completion may have used up.
   */
  lemma CompletionOverdrawsSharesIff(b: Books, p: nat)
    requires b.price > 0 && p < |b.payouts| && b.payouts[p].status == Processing && b.payouts[p].amount <= Cash(b)
    ensures var m := b.payouts[p].member;
            var after := CompletePayout(b, p).0;
            && after.price > 0
            && (AvailableShareValue(after, m) < 0 <==> b.payouts[p].amount + PaidOut(b, m) > MemberShareValue(b, m))
  {
    PaidOutMoves(b, p, b.payouts[p].member);
  }

  // ----- loans ----------------------------------------------------------------------------------

  /**
   A loan application is accepted if and only if the member has the tenure, the principal is positive and covered by
   cash, it is at most three times the value of the member's shares, and the term is three to twelve months. The new
   loan is a DRAFT at five per cent.
   */
  lemma LoanAcceptedIff(b: Books, member: nat, principal: int, term: int, tenured: bool)
    requires b.price > 0
    ensures var (after, outcome) := ApplyForLoan(b, member, principal, term, tenured);
            && (outcome == Done <==>
                  tenured && 0 < principal <= Cash(b) && principal <= 3 * MemberShareValue(b, member) && 3 <= term <= 12)
            && after == if outcome == Done then b.(loans := b.loans + [Loan(member, principal, 0.05, term, Draft, None, None)]) else b
  {
  }

  lemma LoanWithinThriceSavingsIff(b: Books, member: nat, principal: int, term: int, tenured: bool)
    requires Inv(b) && b.price == DEFAULT_PRICE
    ensures ApplyForLoan(b, member, principal, term, tenured).1 == Done <==>
            tenured && 0 < principal <= Cash(b) && principal <= 3 * Saved(b, member) && 3 <= term <= 12
  {
    LoanAcceptedIff(b, member, principal, term, tenured);
    SharesAreSavings(b, member);
  }

  /** A repayment is accepted if and only if the loan is DISBURSED or PARTIALLY_REPAID and owes at least this positive amount. */
  lemma RepaymentAcceptedIff(b: Books, l: nat, amount: int)
    requires SoundTerms(b.loans) && LoanSafe(b.loans, b.repayments) && l < |b.loans|
    ensures var (after, outcome) := RecordRepayment(b, l, amount);
            && (outcome == Done <==> b.loans[l].status in {Disbursed, PartiallyRepaid} && 0 < amount <= StillOwed(b, l))
            && (outcome == Done ==>
                  && Cash(after) == Cash(b) + amount && StillOwed(after, l) == StillOwed(b, l) - amount
                  && |after.repayments| == |b.repayments| + 1 && after.repayments[|b.repayments|].confirmed)
  {
    var (after, outcome) := RecordRepayment(b, l, amount);
    if outcome == Done {
      var row := after.repayments[|b.repayments|];
      PaidAfterPush(b.repayments, row, l);
      PostingMovesCash(b, after, RepaymentEntry(b.chama, |b.repayments|, row));
      NetOfRepayment(b.chama, row.amount, row.principalPortion, row.interestPortion, CashAccount(b));
    }
  }

  // ----- reversals ------------------------------------------------------------------------------

  /** Undoing a counted row gives its money back, unless an earlier crashed reversal already did. */
  lemma UndoMovesCash(b: Books, after: Books, e: Entry)
    requires Agrees(b.chama, b.txs, e) && after.chama == b.chama && after.txs == Undo(b.chama, b.txs, e)
    ensures Cash(after) == Cash(b) - if Standing(b.txs, e.source) then Net(e.lines, CashAccount(b)) else 0
  {
    if Standing(b.txs, e.source) {
      var id := Find(b.txs, e.source).value;
      BalanceAfterAppend(b.txs, ReversalOf(b.chama, b.txs, id, e.undo), CashAccount(b));
      MirroredNetsToZero(e.lines, CashAccount(b));
    }
  }

  /** A repayment reversal is accepted if and only if it names a confirmed repayment of that loan. */
  lemma RepaymentReversedIff(b: Books, l: nat, r: nat, view: Visibility, crash: bool)
    requires PostingsOk(b) && RepaymentsOk(b.txs, b.loans, b.repayments) && SoundTerms(b.loans)
    ensures var (after, outcome) := ReverseRepayment(b, l, r, view, crash);
            && (!outcome.Refused? <==>
                  l < |b.loans| && r < |b.repayments| && b.repayments[r].loan == l && b.repayments[r].confirmed)
            && (!outcome.Refused? ==>
                  && Cash(after) == Cash(b) - (if Standing(b.txs, Source(LoanRepayment, r)) then b.repayments[r].amount else 0)
                  && |after.repayments| == |b.repayments| && (after.repayments[r].confirmed <==> crash))
  {
    var (after, outcome) := ReverseRepayment(b, l, r, view, crash);
    if !outcome.Refused? {
      RepaymentAgrees(b, r);
      UndoMovesCash(b, after, RepaymentEntry(b.chama, r, b.repayments[r]));
    }
  }

  lemma RepaymentAgrees(b: Books, r: nat)
    requires PostingsOk(b) && RepaymentsOk(b.txs, b.loans, b.repayments) && r < |b.repayments|
    ensures var e := RepaymentEntry(b.chama, r, b.repayments[r]);
            Agrees(b.chama, b.txs, e) && Net(e.lines, CashAccount(b)) == b.repayments[r].amount
  {
    var row := b.repayments[r];
    assert Agrees(b.chama, b.txs, Tables(b)[1][r]) && RepaymentOk(b.loans, row);
    NetOfRepayment(b.chama, row.amount, row.principalPortion, row.interestPortion, CashAccount(b));
  }

  /** A payout reversal is accepted if and only if the payout is COMPLETED; its money comes back. */
  lemma PayoutReversedIff(b: Books, p: nat, crash: bool)
    requires PostingsOk(b) && p < |b.payouts|
    ensures var (after, outcome) := ReversePayout(b, p, crash);
            && (!outcome.Refused? <==> b.payouts[p].status == Completed)
            && (!outcome.Refused? ==>
                  && Cash(after) == Cash(b) + (if Standing(b.txs, Source(PayoutCompletion, p)) then b.payouts[p].amount else 0)
                  && |after.payouts| == |b.payouts| && after.payouts[p].status == if crash then Completed else PaidBack)
  {
    var (after, outcome) := ReversePayout(b, p, crash);
    if !outcome.Refused? {
      var e := Tables(b)[2][p];
      assert Agrees(b.chama, b.txs, e);
      UndoMovesCash(b, after, e);
      NetOfTwo(b.chama, SHARE_CAPITAL, CASH, b.payouts[p].amount);
    }
  }

  // ----- contributions --------------------------------------------------------------------------

  /** A contribution is accepted if and only if it is not negative and the member has none for the period but reversed ones. */
  lemma ContributionAcceptedIff(b: Books, member: nat, amount: int, period: int)
    ensures var (after, outcome) := RecordContribution(b, member, amount, period);
            && (outcome == Done <==>
                  amount >= 0 && forall c :: 0 <= c < |b.contributions| &&
                                             b.contributions[c].member == member && b.contributions[c].period == period ==>
                                               b.contributions[c].status == Reversed)
            && after == if outcome == Done then b.(contributions := b.contributions + [Contribution(member, amount, period, Pending)]) else b
  {
  }

  /**
   A contribution is newly confirmed if and only if it is PENDING and not zero. Cash rises by its amount, and its
   member gets one active share, worth the amount to within half a step.
   */
  lemma ConfirmedIff(b: Books, c: nat, tolerant: bool)
    requires b.price > 0 && c < |b.contributions| && b.contributions[c].amount >= 0
    ensures var (after, outcome) := Settle(b, c, tolerant);
            var row := b.contributions[c];
            && (after != b <==> row.status == Pending && row.amount > 0)
            && (outcome == Done <==> after != b || (row.status == Confirmed && tolerant))
            && (after != b ==>
                  && Cash(after) == Cash(b) + row.amount
                  && after.contributions == b.contributions[c := row.(status := Confirmed)]
                  && |after.shares| == |b.shares| + 1 && after.shares[..|b.shares|] == b.shares
                  && BoughtBy(after.shares[|b.shares|], row, c, b.price))
  {
    var after := Settle(b, c, tolerant).0;
    if after.txs != b.txs {
      PostingMovesCash(b, after, ContributionEntry(b.chama, c, after.contributions[c]));
      NetOfTwo(b.chama, CASH, SHARE_CAPITAL, b.contributions[c].amount);
      OneShareError(b.contributions[c].amount, StepPrice(b.price), UnitsFor(b.contributions[c].amount, b.price));
    }
    assert |b.txs + [PostingOf(b.chama, ContributionEntry(b.chama, c, b.contributions[c]))]| == |b.txs| + 1;
  }

  /** An active share of the contribution's member whose units are worth the amount to within half a step. */
  ghost predicate BoughtBy(share: Share, row: Contribution, c: nat, price: int)
    requires price > 0
  {
    var step := StepPrice(price);
    && share.member == row.member && share.contribution == c && share.active
    && -0.5 * step <= share.units as real * step - row.amount as real <= 0.5 * step
  }

  /** A contribution is taken back if and only if it is confirmed; cash falls by its amount and exactly its shares are cancelled. */
  lemma ContributionReversedIff(b: Books, c: nat)
    requires PostingsOk(b) && ContributionsOk(b.txs, b.contributions) && c < |b.contributions|
    ensures var (after, outcome) := ReverseContribution(b, c);
            && (outcome == Done <==> b.contributions[c].status == Confirmed)
            && (outcome == Done ==>
                  && Cash(after) == Cash(b) - b.contributions[c].amount
                  && after.contributions == b.contributions[c := b.contributions[c].(status := Reversed)]
                  && |after.shares| == |b.shares|
                  && forall s :: 0 <= s < |b.shares| ==>
                       after.shares[s] == if b.shares[s].contribution == c then b.shares[s].(active := false) else b.shares[s])
  {
    var (after, outcome) := ReverseContribution(b, c);
    if outcome == Done {
      var e := Tables(b)[3][c];
      assert Agrees(b.chama, b.txs, e);
      UndoMovesCash(b, after, e);
      NetOfTwo(b.chama, CASH, SHARE_CAPITAL, b.contributions[c].amount);
    }
  }

  // ----- registration fees ----------------------------------------------------------------------

  /** A member's one fee is opened OWED; only an OWED fee is waived, and only an OWED positive one is newly paid. */
  lemma FeeOpenedIff(b: Books, member: nat, amount: int)
    ensures var (after, outcome) := OpenFee(b, member, amount);
            && (outcome == Done <==> amount >= 0 && forall f :: 0 <= f < |b.fees| ==> b.fees[f].member != member)
            && after == if outcome == Done then b.(fees := b.fees + [Fee(member, amount, Owed)]) else b
  {
  }

  lemma FeeWaivedIff(b: Books, f: nat)
    requires f < |b.fees|
    ensures var (after, outcome) := WaiveFee(b, f);
            && (outcome == Done <==> b.fees[f].status == Owed)
            && after == if outcome == Done then b.(fees := b.fees[f := b.fees[f].(status := Waived)]) else b
  {
  }

  lemma FeePaidIff(b: Books, f: nat)
    requires f < |b.fees|
    ensures var (after, outcome) := PayFee(b, f);
            && (after != b <==> b.fees[f].status == Owed && b.fees[f].amount > 0)
            && (outcome == Done <==> after != b || b.fees[f].status == Paid)
            && (after != b ==>
                  && Cash(after) == Cash(b) + b.fees[f].amount
                  && after.fees == b.fees[f := b.fees[f].(status := Paid)]
                  && after.feePayments == b.feePayments + [FeePayment.FeePayment(f, b.fees[f].amount, true)])
  {
    var after := PayFee(b, f).0;
    if after.txs != b.txs {
      PostingMovesCash(b, after, FeeEntry(b.chama, |b.feePayments|, after.feePayments[|b.feePayments|]));
      NetOfTwo(b.chama, CASH, REGISTRATION_FEES, b.fees[f].amount);
    }
    assert |b.feePayments + [FeePayment.FeePayment(f, b.fees[f].amount, true)]| == |b.feePayments| + 1;
  }

  /** A fee payment is taken back if and only if the fee is PAID; the fee is OWED again. */
  lemma FeeReversedIff(b: Books, f: nat, crash: bool)
    requires PostingsOk(b) && FeesSettled(b) && f < |b.fees|
    ensures var (after, outcome) := ReverseFee(b, f, crash);
            && (!outcome.Refused? <==> b.fees[f].status == Paid)
            && (!outcome.Refused? ==>
                  && ConfirmedPayment(b.feePayments, f).Some?
                  && var p := ConfirmedPayment(b.feePayments, f).value;
                     && Cash(after)
                        == Cash(b) - (if Standing(b.txs, Source(RegistrationFeePayment, p)) then b.fees[f].amount else 0)
                     && |after.fees| == |b.fees| && |after.feePayments| == |b.feePayments|
                     && after.fees[f].status == (if crash then Paid else Owed) && (after.feePayments[p].confirmed <==> crash))
  {
    var (after, outcome) := ReverseFee(b, f, crash);
    if !outcome.Refused? {
      var p := ConfirmedPayment(b.feePayments, f).value;
      var e := Tables(b)[4][p];
      assert Agrees(b.chama, b.txs, e);
      UndoMovesCash(b, after, e);
      NetOfTwo(b.chama, CASH, REGISTRATION_FEES, b.feePayments[p].amount);
    }
  }
}
