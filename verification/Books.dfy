/**
 The books of one Chama: the ledger and the four sub-ledgers that post to it, as one value per
 committed database state. Row ids are positions. Each operation maps the committed state to the next
 one and says how the request ended; a refused request leaves the state as it was.
 */
module Books {
  import opened Wrappers
  import opened Money
  import opened Calendar
  import opened Ledger
  import opened Tally
  import opened Subledger

  datatype LoanStatus = Draft | Submitted | Approved | Disbursed | PartiallyRepaid | Repaid | Rejected | Cancelled

  datatype Loan = Loan(
    member: nat, principal: int, rate: real, term: int, status: LoanStatus,
    disbursedOn: Option<Date>, maturesOn: Option<Date>)

  datatype Repayment = Repayment(loan: nat, amount: int, principalPortion: int, interestPortion: int, confirmed: bool)

  /** Granted, Declined and PaidBack are the payouts table's APPROVED, REJECTED and REVERSED. */
  datatype PayoutStatus = Requested | Granted | Processing | Completed | Declined | Failed | PaidBack

  datatype Payout = Payout(member: nat, amount: int, status: PayoutStatus)

  datatype ContributionStatus = Pending | Confirmed | Reversed

  datatype Contribution = Contribution(member: nat, amount: int, period: int, status: ContributionStatus)

  datatype Share = Share(member: nat, contribution: nat, units: int, active: bool)

  datatype FeeStatus = Owed | Waived | Paid

  datatype Fee = Fee(member: nat, amount: int, status: FeeStatus)

  datatype FeePayment = FeePayment(fee: nat, amount: int, confirmed: bool)

  datatype Books = Books(
    chama: nat, price: int, txs: seq<Transaction>,
    loans: seq<Loan>, repayments: seq<Repayment>, payouts: seq<Payout>,
    contributions: seq<Contribution>, shares: seq<Share>,
    fees: seq<Fee>, feePayments: seq<FeePayment>)

  datatype Refusal =
    | NotFound | WrongState | NotYetTenured
    | AboveShareLimit | AboveShareValue | AboveCash | AboveOutstanding
    | DuplicatePeriod | ConstraintFailed | ByLedger(error: LedgerError)

  datatype Outcome = Done | Refused(why: Refusal) | Crashed

  /** Whether a query in the same session sees a status that was assigned but not yet flushed. */
  datatype Visibility = Flushed | Stale

  const LOAN_RATE := 0.05

  function Chart(chama: nat): set<Account> {
    { Account(chama, CASH), Account(chama, LOANS_RECEIVABLE), Account(chama, SHARE_CAPITAL),
      Account(chama, REGISTRATION_FEES), Account(chama, INTEREST_INCOME) }
  }

  function Opened(chama: nat, price: int): Books {
    Books(chama, price, [], [], [], [], [], [], [], [])
  }

  // ----- the entry each row posts ---------------------------------------------------------------

  function Debit(chama: nat, code: nat, amount: int): Line {
    Line(Account(chama, code), amount, 0)
  }

  function Credit(chama: nat, code: nat, amount: int): Line {
    Line(Account(chama, code), 0, amount)
  }

  predicate Out(status: LoanStatus) {
    status in {Disbursed, PartiallyRepaid, Repaid}
  }

  function LoanEntry(chama: nat, id: nat, loan: Loan): Entry {
    Entry(Source(LoanDisbursement, id), Memo(ForDisbursement, id), Memo(ForDisbursement, id),
          [Debit(chama, LOANS_RECEIVABLE, loan.principal), Credit(chama, CASH, loan.principal)],
          Out(loan.status))
  }

  function RepaymentLines(chama: nat, amount: int, principal: int, interest: int): seq<Line> {
    [Debit(chama, CASH, amount)]
    + (if principal > 0 then [Credit(chama, LOANS_RECEIVABLE, principal)] else [])
    + (if interest > 0 then [Credit(chama, INTEREST_INCOME, interest)] else [])
  }

  function RepaymentEntry(chama: nat, id: nat, r: Repayment): Entry {
    Entry(Source(LoanRepayment, id), Memo(ForRepayment, r.loan), Memo(ForRepaymentReversal, r.loan),
          RepaymentLines(chama, r.amount, r.principalPortion, r.interestPortion), r.confirmed)
  }

  function PayoutEntry(chama: nat, id: nat, p: Payout): Entry {
    Entry(Source(PayoutCompletion, id), Memo(ForCompletion, id), Memo(ForCompletionReversal, id),
          [Debit(chama, SHARE_CAPITAL, p.amount), Credit(chama, CASH, p.amount)],
          p.status == Completed)
  }

  function ContributionEntry(chama: nat, id: nat, c: Contribution): Entry {
    Entry(Source(ContributionConfirmation, id), Memo(ForConfirmation, c.period), Memo(ForConfirmationReversal, c.period),
          [Debit(chama, CASH, c.amount), Credit(chama, SHARE_CAPITAL, c.amount)],
          c.status == Confirmed)
  }

  function FeeEntry(chama: nat, id: nat, p: FeePayment): Entry {
    Entry(Source(RegistrationFeePayment, id), Memo(ForFeePayment, p.fee), Memo(ForFeePaymentReversal, p.fee),
          [Debit(chama, CASH, p.amount), Credit(chama, REGISTRATION_FEES, p.amount)], p.confirmed)
  }

  function LoanEntries(chama: nat, rows: seq<Loan>): (es: seq<Entry>)
    ensures |es| == |rows|
  {
    seq(|rows|, i requires 0 <= i < |rows| => LoanEntry(chama, i, rows[i]))
  }

  function RepaymentEntries(chama: nat, rows: seq<Repayment>): (es: seq<Entry>)
    ensures |es| == |rows|
  {
    seq(|rows|, i requires 0 <= i < |rows| => RepaymentEntry(chama, i, rows[i]))
  }

  function PayoutEntries(chama: nat, rows: seq<Payout>): (es: seq<Entry>)
    ensures |es| == |rows|
  {
    seq(|rows|, i requires 0 <= i < |rows| => PayoutEntry(chama, i, rows[i]))
  }

  function ContributionEntries(chama: nat, rows: seq<Contribution>): (es: seq<Entry>)
    ensures |es| == |rows|
  {
    seq(|rows|, i requires 0 <= i < |rows| => ContributionEntry(chama, i, rows[i]))
  }

  function FeeEntries(chama: nat, rows: seq<FeePayment>): (es: seq<Entry>)
    ensures |es| == |rows|
  {
    seq(|rows|, i requires 0 <= i < |rows| => FeeEntry(chama, i, rows[i]))
  }

  const KINDS := [LoanDisbursement, LoanRepayment, PayoutCompletion, ContributionConfirmation, RegistrationFeePayment]

  function Tables(b: Books): seq<seq<Entry>> {
    [LoanEntries(b.chama, b.loans), RepaymentEntries(b.chama, b.repayments), PayoutEntries(b.chama, b.payouts),
     ContributionEntries(b.chama, b.contributions), FeeEntries(b.chama, b.feePayments)]
  }

  // ----- figures derived on read ----------------------------------------------------------------

  function Cash(b: Books): int {
    Balance(b.txs, Account(b.chama, CASH))
  }

  function PrincipalItems(rows: seq<Repayment>): (items: seq<Item<nat>>)
    ensures |items| == |rows|
  {
    seq(|rows|, i requires 0 <= i < |rows| => Item(rows[i].loan, if rows[i].confirmed then rows[i].principalPortion else 0))
  }

  function InterestItems(rows: seq<Repayment>): (items: seq<Item<nat>>)
    ensures |items| == |rows|
  {
    seq(|rows|, i requires 0 <= i < |rows| => Item(rows[i].loan, if rows[i].confirmed then rows[i].interestPortion else 0))
  }

  function PaidPrincipal(rows: seq<Repayment>, loan: nat): int {
    In(PrincipalItems(rows), loan)
  }

  function PaidInterest(rows: seq<Repayment>, loan: nat): int {
    In(InterestItems(rows), loan)
  }

  function Interest(loan: Loan): int
    requires loan.principal >= 0 && loan.rate >= 0.0
  {
    InterestFor(loan.principal, loan.rate)
  }

  /** The check constraints of the loans table that the interest formula relies on. */
  predicate SoundTerms(rows: seq<Loan>) {
    forall i :: 0 <= i < |rows| ==> rows[i].principal > 0 && rows[i].rate >= 0.0 && 3 <= rows[i].term <= 12
  }

  /** What the operations need of a state to be defined. */
  predicate Usable(b: Books) {
    b.price > 0 && SoundTerms(b.loans)
  }

  function StatusFromOutstanding(loan: Loan, principal: int, interest: int): LoanStatus
    requires loan.principal >= 0 && loan.rate >= 0.0
  {
    if principal <= 0 && interest <= 0 then Repaid
    else if principal == loan.principal && interest == Interest(loan) then Disbursed
    else PartiallyRepaid
  }

  /** The status that the repayments visible to a query give a disbursed loan. */
  function StatusGiven(loan: Loan, id: nat, rows: seq<Repayment>): LoanStatus
    requires loan.principal >= 0 && loan.rate >= 0.0
  {
    StatusFromOutstanding(loan, loan.principal - PaidPrincipal(rows, id), Interest(loan) - PaidInterest(rows, id))
  }

  function UnitItems(rows: seq<Share>): (items: seq<Item<nat>>)
    ensures |items| == |rows|
  {
    seq(|rows|, i requires 0 <= i < |rows| => Item(rows[i].member, if rows[i].active then rows[i].units else 0))
  }

  function ActiveUnits(rows: seq<Share>, member: nat): int {
    In(UnitItems(rows), member)
  }

  function MemberShareValue(b: Books, member: nat): int
    requires b.price > 0
  {
    ShareValue(ActiveUnits(b.shares, member), b.price)
  }

  function CompletedItems(rows: seq<Payout>): (items: seq<Item<nat>>)
    ensures |items| == |rows|
  {
    seq(|rows|, i requires 0 <= i < |rows| => Item(rows[i].member, if rows[i].status == Completed then rows[i].amount else 0))
  }

  function CompletedTotal(rows: seq<Payout>, member: nat): int {
    In(CompletedItems(rows), member)
  }

  function AvailableShareValue(b: Books, member: nat): int
    requires b.price > 0
  {
    MemberShareValue(b, member) - CompletedTotal(b.payouts, member)
  }

  // ----- loans ----------------------------------------------------------------------------------

  function ApplyForLoan(b: Books, member: nat, principal: int, term: int, tenured: bool): (end: (Books, Outcome))
    requires b.price > 0
    ensures end.1.Refused? ==> end.0 == b
    ensures end.1 != Crashed
  {
    if !tenured then (b, Refused(NotYetTenured))
    else if principal > MemberShareValue(b, member) * 3 then (b, Refused(AboveShareLimit))
    else if principal > Cash(b) then (b, Refused(AboveCash))
    else if principal <= 0 || !(3 <= term <= 12) then (b, Refused(ConstraintFailed))
    else (b.(loans := b.loans + [Loan(member, principal, LOAN_RATE, term, Draft, None, None)]), Done)
  }

  predicate LoanMove(from: LoanStatus, to: LoanStatus) {
    match to
    case Submitted => from == Draft
    case Approved => from == Submitted
    case Rejected => from == Submitted
    case Cancelled => from == Approved
    case _ => false
  }

  function MoveLoan(b: Books, l: nat, to: LoanStatus): (end: (Books, Outcome))
    ensures end.1.Refused? ==> end.0 == b
    ensures end.1 != Crashed
  {
    if l >= |b.loans| then (b, Refused(NotFound))
    else if !LoanMove(b.loans[l].status, to) then (b, Refused(WrongState))
    else (b.(loans := b.loans[l := b.loans[l].(status := to)]), Done)
  }

  function Disburse(b: Books, l: nat, today: Date): (end: (Books, Outcome))
    ensures end.1.Refused? ==> end.0 == b
    ensures end.1 != Crashed
  {
    if l >= |b.loans| then (b, Refused(NotFound))
    else
      var loan := b.loans[l];
      if loan.status == Disbursed then (b, Done)
      else if loan.status != Approved then (b, Refused(WrongState))
      else if loan.principal > Cash(b) then (b, Refused(AboveCash))
      else
        var out := loan.(status := Disbursed, disbursedOn := Some(today), maturesOn := Some(AddMonths(today, loan.term)));
        (b.(loans := b.loans[l := out], txs := b.txs + [PostingOf(b.chama, LoanEntry(b.chama, l, out))]), Done)
  }

  /** Interest first: the split of a repayment into interest and principal. */
  function InterestPart(amount: int, owedInterest: int): int {
    if amount < owedInterest then amount else owedInterest
  }

  function RecordRepayment(b: Books, l: nat, amount: int): (end: (Books, Outcome))
    requires SoundTerms(b.loans)
    ensures end.1.Refused? ==> end.0 == b
    ensures end.1 != Crashed
  {
    if l >= |b.loans| then (b, Refused(NotFound))
    else if b.loans[l].status !in {Disbursed, PartiallyRepaid} then (b, Refused(WrongState))
    else
      var loan := b.loans[l];
      var owedPrincipal := loan.principal - PaidPrincipal(b.repayments, l);
      var owedInterest := Interest(loan) - PaidInterest(b.repayments, l);
      if amount > owedPrincipal + owedInterest then (b, Refused(AboveOutstanding))
      else if amount <= 0 then (b, Refused(ConstraintFailed))
      else
        var interest := InterestPart(amount, owedInterest);
        var row := Repayment(l, amount, amount - interest, interest, true);
        var status := StatusFromOutstanding(loan, owedPrincipal - (amount - interest), owedInterest - interest);
        (b.(loans := b.loans[l := loan.(status := status)], repayments := b.repayments + [row],
            txs := b.txs + [PostingOf(b.chama, RepaymentEntry(b.chama, |b.repayments|, row))]), Done)
  }

  /**
   The reversal commits the compensating transaction first and the two statuses afterwards; a crash
   in between leaves only the first. The loan status comes from a query that may not see the new
   repayment status.
   */
  function ReverseRepayment(b: Books, l: nat, r: nat, view: Visibility, crash: bool): (end: (Books, Outcome))
    requires SoundTerms(b.loans)
    ensures end.1.Refused? ==> end.0 == b
    ensures end.1.Refused? || end.1 == if crash then Crashed else Done
  {
    if l >= |b.loans| || r >= |b.repayments| || b.repayments[r].loan != l then (b, Refused(NotFound))
    else if !b.repayments[r].confirmed then (b, Refused(WrongState))
    else
      var posted := b.(txs := Undo(b.chama, b.txs, RepaymentEntry(b.chama, r, b.repayments[r])));
      if crash then (posted, Crashed)
      else
        var rows := b.repayments[r := b.repayments[r].(confirmed := false)];
        var visible := if view == Flushed then rows else b.repayments;
        (posted.(repayments := rows, loans := b.loans[l := b.loans[l].(status := StatusGiven(b.loans[l], l, visible))]), Done)
  }

  // ----- payouts --------------------------------------------------------------------------------

  function RequestPayout(b: Books, member: nat, amount: int): (end: (Books, Outcome))
    requires b.price > 0
    ensures end.1.Refused? ==> end.0 == b
    ensures end.1 != Crashed
    ensures end.0.loans == b.loans && end.0.repayments == b.repayments
  {
    if amount > AvailableShareValue(b, member) then (b, Refused(AboveShareValue))
    else if amount > Cash(b) then (b, Refused(AboveCash))
    else if amount <= 0 then (b, Refused(ConstraintFailed))
    else (b.(payouts := b.payouts + [Payout(member, amount, Requested)]), Done)
  }

  predicate PayoutMove(from: PayoutStatus, to: PayoutStatus) {
    match to
    case Granted => from == Requested
    case Declined => from == Requested
    case Processing => from == Granted
    case Failed => from == Processing
    case _ => false
  }

  function MovePayout(b: Books, p: nat, to: PayoutStatus): (end: (Books, Outcome))
    ensures end.1.Refused? ==> end.0 == b
    ensures end.1 != Crashed
    ensures end.0.loans == b.loans && end.0.repayments == b.repayments
  {
    if p >= |b.payouts| then (b, Refused(NotFound))
    else if !PayoutMove(b.payouts[p].status, to) then (b, Refused(WrongState))
    else (b.(payouts := b.payouts[p := b.payouts[p].(status := to)]), Done)
  }

  function CompletePayout(b: Books, p: nat): (end: (Books, Outcome))
    ensures end.1.Refused? ==> end.0 == b
    ensures end.1 != Crashed
    ensures end.0.loans == b.loans && end.0.repayments == b.repayments
  {
    if p >= |b.payouts| then (b, Refused(NotFound))
    else
      var payout := b.payouts[p];
      if payout.status == Completed then (b, Done)
      else if payout.status != Processing then (b, Refused(WrongState))
      else if payout.amount > Cash(b) then (b, Refused(AboveCash))
      else
        var paid := payout.(status := Completed);
        (b.(payouts := b.payouts[p := paid], txs := b.txs + [PostingOf(b.chama, PayoutEntry(b.chama, p, paid))]), Done)
  }

  function ReversePayout(b: Books, p: nat, crash: bool): (end: (Books, Outcome))
    ensures end.1.Refused? ==> end.0 == b
    ensures end.1.Refused? || end.1 == if crash then Crashed else Done
    ensures end.0.loans == b.loans && end.0.repayments == b.repayments
  {
    if p >= |b.payouts| then (b, Refused(NotFound))
    else if b.payouts[p].status != Completed then (b, Refused(WrongState))
    else
      var posted := b.(txs := Undo(b.chama, b.txs, PayoutEntry(b.chama, p, b.payouts[p])));
      if crash then (posted, Crashed)
      else (posted.(payouts := b.payouts[p := b.payouts[p].(status := PaidBack)]), Done)
  }

  // ----- contributions --------------------------------------------------------------------------

  predicate OpenFor(c: Contribution, member: nat, period: int) {
    c.member == member && c.period == period && c.status != Reversed
  }

  predicate HasOpen(rows: seq<Contribution>, member: nat, period: int) {
    exists c :: 0 <= c < |rows| && OpenFor(rows[c], member, period)
  }

  function RecordContribution(b: Books, member: nat, amount: int, period: int): (end: (Books, Outcome))
    ensures end.1.Refused? ==> end.0 == b
    ensures end.1 != Crashed
    ensures end.0.loans == b.loans && end.0.repayments == b.repayments
  {
    if HasOpen(b.contributions, member, period) then (b, Refused(DuplicatePeriod))
    else if amount < 0 then (b, Refused(ConstraintFailed))
    else (b.(contributions := b.contributions + [Contribution(member, amount, period, Pending)]), Done)
  }

  /** Confirm and post; money-in settlement tolerates a contribution that is already confirmed. */
  function Settle(b: Books, c: nat, tolerant: bool): (end: (Books, Outcome))
    requires b.price > 0
    ensures end.1.Refused? ==> end.0 == b
    ensures end.1 != Crashed
    ensures end.0.loans == b.loans && end.0.repayments == b.repayments
  {
    if c >= |b.contributions| then (b, Refused(NotFound))
    else
      var row := b.contributions[c];
      if row.status == Confirmed && tolerant then (b, Done)
      else if row.status != Pending then (b, Refused(WrongState))
      else if row.amount == 0 then (b, Refused(ByLedger(NotOneSided)))
      else
        var confirmed := row.(status := Confirmed);
        (b.(contributions := b.contributions[c := confirmed],
            shares := b.shares + [Share(row.member, c, UnitsFor(row.amount, b.price), true)],
            txs := b.txs + [PostingOf(b.chama, ContributionEntry(b.chama, c, confirmed))]), Done)
  }

  function CancelShares(rows: seq<Share>, c: nat): (r: seq<Share>)
    ensures |r| == |rows|
  {
    seq(|rows|, i requires 0 <= i < |rows| =>
      if rows[i].contribution == c then rows[i].(active := false) else rows[i])
  }

  /** One commit: the reversal, the contribution's status and its shares. */
  function ReverseContribution(b: Books, c: nat): (end: (Books, Outcome))
    ensures end.1.Refused? ==> end.0 == b
    ensures end.1 != Crashed
    ensures end.0.loans == b.loans && end.0.repayments == b.repayments
  {
    if c >= |b.contributions| then (b, Refused(NotFound))
    else if b.contributions[c].status != Confirmed then (b, Refused(WrongState))
    else
      (b.(contributions := b.contributions[c := b.contributions[c].(status := Reversed)],
          shares := CancelShares(b.shares, c),
          txs := Undo(b.chama, b.txs, ContributionEntry(b.chama, c, b.contributions[c]))), Done)
  }

  // ----- registration fees ----------------------------------------------------------------------

  function OpenFee(b: Books, member: nat, amount: int): (end: (Books, Outcome))
    ensures end.1.Refused? ==> end.0 == b
    ensures end.1 != Crashed
    ensures end.0.loans == b.loans && end.0.repayments == b.repayments
  {
    if amount < 0 || exists f :: 0 <= f < |b.fees| && b.fees[f].member == member then (b, Refused(ConstraintFailed))
    else (b.(fees := b.fees + [Fee(member, amount, Owed)]), Done)
  }

  function WaiveFee(b: Books, f: nat): (end: (Books, Outcome))
    ensures end.1.Refused? ==> end.0 == b
    ensures end.1 != Crashed
    ensures end.0.loans == b.loans && end.0.repayments == b.repayments
  {
    if f >= |b.fees| then (b, Refused(NotFound))
    else if b.fees[f].status != Owed then (b, Refused(WrongState))
    else (b.(fees := b.fees[f := b.fees[f].(status := Waived)]), Done)
  }

  function PayFee(b: Books, f: nat): (end: (Books, Outcome))
    ensures end.1.Refused? ==> end.0 == b
    ensures end.1 != Crashed
    ensures end.0.loans == b.loans && end.0.repayments == b.repayments
  {
    if f >= |b.fees| then (b, Refused(NotFound))
    else if b.fees[f].status == Paid then (b, Done)
    else if b.fees[f].status != Owed then (b, Refused(WrongState))
    else if b.fees[f].amount <= 0 then (b, Refused(ConstraintFailed))
    else
      var row := FeePayment(f, b.fees[f].amount, true);
      (b.(fees := b.fees[f := b.fees[f].(status := Paid)], feePayments := b.feePayments + [row],
          txs := b.txs + [PostingOf(b.chama, FeeEntry(b.chama, |b.feePayments|, row))]), Done)
  }

  /** The confirmed payment of a fee, if any. */
  function ConfirmedPayment(rows: seq<FeePayment>, f: nat): (found: Option<nat>)
    ensures found.Some? ==> found.value < |rows| && rows[found.value].fee == f && rows[found.value].confirmed
    ensures found.None? ==> forall i :: 0 <= i < |rows| && rows[i].fee == f ==> !rows[i].confirmed
  {
    if rows == [] then None
    else
      var last := |rows| - 1;
      if rows[last].fee == f && rows[last].confirmed then Some(last) else ConfirmedPayment(rows[..last], f)
  }

  function ReverseFee(b: Books, f: nat, crash: bool): (end: (Books, Outcome))
    ensures end.1.Refused? ==> end.0 == b
    ensures end.1.Refused? || end.1 == if crash then Crashed else Done
    ensures end.0.loans == b.loans && end.0.repayments == b.repayments
  {
    if f >= |b.fees| then (b, Refused(NotFound))
    else if b.fees[f].status != Paid || ConfirmedPayment(b.feePayments, f).None? then (b, Refused(WrongState))
    else
      var p := ConfirmedPayment(b.feePayments, f).value;
      var posted := b.(txs := Undo(b.chama, b.txs, FeeEntry(b.chama, p, b.feePayments[p])));
      if crash then (posted, Crashed)
      else
        (posted.(feePayments := b.feePayments[p := b.feePayments[p].(confirmed := false)],
                 fees := b.fees[f := b.fees[f].(status := Owed)]), Done)
  }

  // ----- runs -----------------------------------------------------------------------------------

  datatype Op =
    | DoApply(member: nat, principal: int, term: int, tenured: bool)
    | DoMoveLoan(loan: nat, toLoan: LoanStatus)
    | DoDisburse(loan: nat, today: Date)
    | DoRepay(loan: nat, amount: int)
    | DoReverseRepayment(loan: nat, repayment: nat, view: Visibility, crash: bool)
    | DoRequestPayout(member: nat, amount: int)
    | DoMovePayout(payout: nat, toPayout: PayoutStatus)
    | DoComplete(payout: nat)
    | DoReversePayout(payout: nat, crash: bool)
    | DoRecord(member: nat, amount: int, period: int)
    | DoSettle(contribution: nat, tolerant: bool)
    | DoReverseContribution(contribution: nat)
    | DoOpenFee(member: nat, amount: int)
    | DoWaive(fee: nat)
    | DoPay(fee: nat)
    | DoReverseFee(fee: nat, crash: bool)
}
