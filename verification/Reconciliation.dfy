/** Every operation on the books keeps them sound, and keeps each account's balance equal to its ledger view. */
module Reconciliation {
  import opened Wrappers
  import opened Money
  import opened Calendar
  import opened Ledger
  import opened Tally
  import opened Subledger
  import opened Books

  // ----- what is true of every committed state --------------------------------------------------

  ghost predicate LoansOk(txs: seq<Transaction>, loans: seq<Loan>) {
    forall l :: 0 <= l < |loans| ==>
      var loan := loans[l];
      && (Out(loan.status) <==> Find(txs, Source(LoanDisbursement, l)).Some?)
      && (Out(loan.status) ==> Standing(txs, Source(LoanDisbursement, l)))
      && (Out(loan.status) ==> loan.disbursedOn.Some? && loan.maturesOn == Some(AddMonths(loan.disbursedOn.value, loan.term)))
  }

  ghost predicate RepaymentOk(loans: seq<Loan>, r: Repayment) {
    && r.loan < |loans| && Out(loans[r.loan].status)
    && r.amount > 0 && r.principalPortion >= 0 && r.interestPortion >= 0
    && r.principalPortion + r.interestPortion == r.amount
  }

  ghost predicate RepaymentsOk(txs: seq<Transaction>, loans: seq<Loan>, repayments: seq<Repayment>) {
    forall r :: 0 <= r < |repayments| ==>
      RepaymentOk(loans, repayments[r]) && Find(txs, Source(LoanRepayment, r)).Some?
  }

  /** Paid portions stay within what each loan owes. */
  ghost predicate LoanSafe(loans: seq<Loan>, repayments: seq<Repayment>)
    requires SoundTerms(loans)
  {
    forall l :: 0 <= l < |loans| ==>
      && 0 <= PaidPrincipal(repayments, l) <= loans[l].principal
      && 0 <= PaidInterest(repayments, l) <= Interest(loans[l])
  }

  ghost predicate PayoutsOk(txs: seq<Transaction>, payouts: seq<Payout>) {
    forall p :: 0 <= p < |payouts| ==>
      && payouts[p].amount > 0
      && (payouts[p].status in {Completed, PaidBack} <==> Find(txs, Source(PayoutCompletion, p)).Some?)
  }

  ghost predicate ContributionsOk(txs: seq<Transaction>, rows: seq<Contribution>) {
    forall c :: 0 <= c < |rows| ==>
      && rows[c].amount >= 0 && (rows[c].status != Pending ==> rows[c].amount > 0)
      && (rows[c].status == Pending <==> Find(txs, Source(ContributionConfirmation, c)).None?)
      && (rows[c].status == Confirmed ==> Standing(txs, Source(ContributionConfirmation, c)))
  }

  /** At most one contribution per member and period that is not reversed. */
  ghost predicate OneOpenPerPeriod(rows: seq<Contribution>) {
    forall c, d :: 0 <= c < d < |rows| && rows[c].status != Reversed ==> !OpenFor(rows[d], rows[c].member, rows[c].period)
  }

  function ConfirmedUnitItems(rows: seq<Contribution>, price: int): (items: seq<Item<nat>>)
    requires price > 0
    ensures |items| == |rows|
  {
    seq(|rows|, i requires 0 <= i < |rows| =>
      Item(rows[i].member, if rows[i].status == Confirmed then UnitsFor(rows[i].amount, price) else 0))
  }

  /** Units bought by a member's confirmed contributions. */
  function ConfirmedUnits(rows: seq<Contribution>, price: int, member: nat): int
    requires price > 0
  {
    In(ConfirmedUnitItems(rows, price), member)
  }

  ghost predicate ShareOk(price: int, contributions: seq<Contribution>, share: Share)
    requires price > 0
  {
    && share.contribution < |contributions|
    && contributions[share.contribution].status != Pending
    && share.member == contributions[share.contribution].member
    && share.units == UnitsFor(contributions[share.contribution].amount, price)
    && (share.active <==> contributions[share.contribution].status == Confirmed)
  }

  /** Every settled contribution has exactly one share, active while the contribution is confirmed. */
  ghost predicate SharesOk(price: int, contributions: seq<Contribution>, shares: seq<Share>)
    requires price > 0
  {
    && (forall s :: 0 <= s < |shares| ==> ShareOk(price, contributions, shares[s]))
    && (forall s, t :: 0 <= s < t < |shares| ==> shares[s].contribution != shares[t].contribution)
    && (forall c :: 0 <= c < |contributions| && contributions[c].status != Pending ==>
          exists s :: 0 <= s < |shares| && shares[s].contribution == c)
  }

  /** A member's active shares hold the units that the member's confirmed contributions bought. */
  ghost predicate UnitsOk(price: int, contributions: seq<Contribution>, shares: seq<Share>)
    requires price > 0
  {
    forall m: nat :: ActiveUnits(shares, m) == ConfirmedUnits(contributions, price, m)
  }

  function FeePaidItems(rows: seq<FeePayment>): (items: seq<Item<nat>>)
    ensures |items| == |rows|
  {
    seq(|rows|, i requires 0 <= i < |rows| => Item(rows[i].fee, if rows[i].confirmed then rows[i].amount else 0))
  }

  /** A fee is PAID exactly when it has a confirmed payment, and the confirmed payments make up its amount. */
  ghost predicate FeesOk(fees: seq<Fee>, payments: seq<FeePayment>) {
    && (forall f :: 0 <= f < |fees| ==>
          && fees[f].amount >= 0
          && (fees[f].status == Paid <==> ConfirmedPayment(payments, f).Some?)
          && In(FeePaidItems(payments), f) == if fees[f].status == Paid then fees[f].amount else 0)
    && (forall f, g :: 0 <= f < g < |fees| ==> fees[f].member != fees[g].member)
  }

  /** Payments are of their fee's amount, and a fee never has two confirmed ones. */
  ghost predicate FeePaymentsOk(txs: seq<Transaction>, fees: seq<Fee>, payments: seq<FeePayment>) {
    && (forall p :: 0 <= p < |payments| ==>
          && payments[p].fee < |fees| && payments[p].amount == fees[payments[p].fee].amount && payments[p].amount > 0
          && Find(txs, Source(RegistrationFeePayment, p)).Some?)
    && (forall p, q :: 0 <= p < q < |payments| && payments[p].confirmed && payments[q].confirmed ==>
          payments[p].fee != payments[q].fee)
  }

  ghost predicate PostingsOk(b: Books) {
    && OneChama(Chart(b.chama), b.chama, b.txs)
    && AllAgree(b.chama, b.txs, KINDS, Tables(b))
  }

  ghost predicate LendingOk(b: Books) {
    && SoundTerms(b.loans) && LoansOk(b.txs, b.loans) && RepaymentsOk(b.txs, b.loans, b.repayments)
    && LoanSafe(b.loans, b.repayments)
  }

  ghost predicate SavingOk(b: Books) {
    && b.price > 0 && PayoutsOk(b.txs, b.payouts) && ContributionsOk(b.txs, b.contributions)
    && OneOpenPerPeriod(b.contributions)
    && SharesOk(b.price, b.contributions, b.shares) && UnitsOk(b.price, b.contributions, b.shares)
  }

  ghost predicate FeesSettled(b: Books) {
    FeesOk(b.fees, b.feePayments) && FeePaymentsOk(b.txs, b.fees, b.feePayments)
  }

  ghost predicate Inv(b: Books) {
    Usable(b) && PostingsOk(b) && LendingOk(b) && SavingOk(b) && FeesSettled(b)
  }

  /** The balance read from the entries of an account is what the standing postings of the rows add up to. */
  ghost predicate Reconciled(b: Books, account: Account) {
    Balance(b.txs, account) == LedgerView(b.txs, Tables(b), account)
  }

  /** An operation's next state is sound, and reconciled on an account it was reconciled on. */
  ghost predicate Keeps(before: Books, after: Books, account: Account) {
    && Inv(after) && after.chama == before.chama && after.price == before.price
    && (Reconciled(before, account) ==> Reconciled(after, account))
  }

  lemma OpenedIsSound(chama: nat, price: int, account: Account)
    requires price > 0
    ensures Inv(Opened(chama, price)) && Reconciled(Opened(chama, price), account)
  {
    LedgerViewOfNothing(Tables(Opened(chama, price)), account);
  }

  lemma {:induction false} LedgerViewOfNothing(tables: seq<seq<Entry>>, account: Account)
    requires forall i :: 0 <= i < |tables| ==> tables[i] == []
    ensures LedgerView([], tables, account) == 0
  {
    if tables != [] {
      LedgerViewOfNothing(tables[..|tables| - 1], account);
    }
  }

  lemma {:induction false} PairIsBalanced(chama: nat, debited: nat, credited: nat, amount: int)
    requires amount > 0 && Account(chama, debited) in Chart(chama) && Account(chama, credited) in Chart(chama)
    ensures Balanced(Chart(chama), chama, [Debit(chama, debited, amount), Credit(chama, credited, amount)])
  {
    var lines := [Debit(chama, debited, amount), Credit(chama, credited, amount)];
    assert lines[..1][..0] == [] && lines[..1] == [lines[0]];
    assert TotalNet(lines[..1]) == amount;
    assert lines[0].debit > 0 && lines[1].credit > 0;
  }

  lemma RepaymentIsBalanced(chama: nat, amount: int, principal: int, interest: int)
    requires amount > 0 && principal >= 0 && interest >= 0 && principal + interest == amount
    ensures Balanced(Chart(chama), chama, RepaymentLines(chama, amount, principal, interest))
  {
    var lines := RepaymentLines(chama, amount, principal, interest);
    assert lines[0].debit > 0 && lines[1].credit > 0;
    assert lines[..1][..0] == [] && lines[..1] == [lines[0]];
    assert TotalNet(lines[..1]) == amount;
    if |lines| == 3 {
      assert lines[..2][..1] == lines[..1];
      assert TotalNet(lines[..2]) == interest;
    }
  }

  // ----- the commits, on books ------------------------------------------------------------------

  /** Row j of table i changed and nothing else that posts. */
  ghost predicate RowMoved(b: Books, after: Books, i: nat, j: nat) {
    && after.chama == b.chama
    && OnlyRow(Tables(b), Tables(after), i, j)
    && Tables(after)[i][j].source == Source(KINDS[i], j)
  }

  lemma QuietStep(b: Books, after: Books, i: nat, j: nat, account: Account)
    requires PostingsOk(b) && RowMoved(b, after, i, j) && after.txs == b.txs
    requires Tables(after)[i][j].counts <==> j < |Tables(b)[i]| && Tables(b)[i][j].counts
    ensures PostingsOk(after) && (Reconciled(b, account) ==> Reconciled(after, account))
    ensures j == |Tables(b)[i]| ==> Find(after.txs, Source(KINDS[i], j)).None?
  {
    QuietCommit(Chart(b.chama), b.chama, b.txs, KINDS, Tables(b), Tables(after), i, j, account);
    if j == |Tables(b)[i]| {
      NewRowIsUnposted(Chart(b.chama), b.chama, b.txs, KINDS, Tables(b), i);
    }
  }

  lemma PostingStep(b: Books, after: Books, i: nat, j: nat, account: Account)
    requires PostingsOk(b) && RowMoved(b, after, i, j) && Tables(after)[i][j].counts
    requires j == |Tables(b)[i]| || Find(b.txs, Source(KINDS[i], j)).None?
    requires Balanced(Chart(b.chama), b.chama, Tables(after)[i][j].lines)
    requires after.txs == b.txs + [PostingOf(b.chama, Tables(after)[i][j])]
    ensures PostingsOk(after) && (Reconciled(b, account) ==> Reconciled(after, account))
    ensures OthersKeptBut(b.txs, after.txs, Source(KINDS[i], j)) && Standing(after.txs, Source(KINDS[i], j))
  {
    if j == |Tables(b)[i]| {
      NewRowIsUnposted(Chart(b.chama), b.chama, b.txs, KINDS, Tables(b), i);
    }
    PostingCommit(Chart(b.chama), b.chama, b.txs, KINDS, Tables(b), Tables(after), i, j, account);
  }

  lemma ReversalStep(b: Books, after: Books, i: nat, j: nat, account: Account)
    requires PostingsOk(b) && RowMoved(b, after, i, j) && j < |Tables(b)[i]| && Tables(b)[i][j].counts
    requires after.txs == Undo(b.chama, b.txs, Tables(b)[i][j])
    ensures PostingsOk(after) && (Reconciled(b, account) ==> Reconciled(after, account))
    ensures OthersKeptBut(b.txs, after.txs, Source(KINDS[i], j)) && !Standing(after.txs, Source(KINDS[i], j))
    ensures Find(after.txs, Source(KINDS[i], j)) == Find(b.txs, Source(KINDS[i], j))
  {
    ReversalCommit(Chart(b.chama), b.chama, b.txs, KINDS, Tables(b), Tables(after), i, j, account);
  }

  /** Row predicates only look up postings by source, so they survive a posting or reversal of another kind. */
  lemma LendingSurvives(b: Books, after: Books, source: Source)
    requires LendingOk(b) && after.loans == b.loans && after.repayments == b.repayments
    requires OthersKeptBut(b.txs, after.txs, source) && source.kind !in {LoanDisbursement, LoanRepayment}
    ensures LendingOk(after)
  {
  }

  lemma SavingSurvives(b: Books, after: Books, source: Source)
    requires SavingOk(b) && after.price == b.price && after.payouts == b.payouts
    requires after.contributions == b.contributions && after.shares == b.shares
    requires OthersKeptBut(b.txs, after.txs, source) && source.kind !in {PayoutCompletion, ContributionConfirmation}
    ensures SavingOk(after)
  {
  }

  lemma FeesSurvive(b: Books, after: Books, source: Source)
    requires FeesSettled(b) && after.fees == b.fees && after.feePayments == b.feePayments
    requires OthersKeptBut(b.txs, after.txs, source) && source.kind != RegistrationFeePayment
    ensures FeesSettled(after)
  {
  }

  // ----- loans ----------------------------------------------------------------------------------

  /** Loan rows changed in one place; every other table of entries is as before. */
  lemma OnlyLoanRow(b: Books, after: Books, l: nat)
    requires after.chama == b.chama
    requires RepaymentEntries(b.chama, after.repayments) == RepaymentEntries(b.chama, b.repayments)
    requires after.payouts == b.payouts && after.contributions == b.contributions && after.feePayments == b.feePayments
    requires l <= |b.loans| && |after.loans| == (if l == |b.loans| then l + 1 else |b.loans|)
    requires forall i :: 0 <= i < |b.loans| && i != l ==> after.loans[i] == b.loans[i]
    requires l < |b.loans| ==> after.loans[l].principal == b.loans[l].principal
    ensures OnlyRow(Tables(b), Tables(after), 0, l)
  {
  }

  /** A loan that is not out has no repayments. */
  lemma UnknownLoanIsUnpaid(b: Books, l: nat)
    requires RepaymentsOk(b.txs, b.loans, b.repayments) && (l < |b.loans| ==> !Out(b.loans[l].status))
    ensures PaidPrincipal(b.repayments, l) == 0 && PaidInterest(b.repayments, l) == 0
  {
    InAbsentGroup(PrincipalItems(b.repayments), l);
    InAbsentGroup(InterestItems(b.repayments), l);
  }

  /** A loan appears or moves while it is not out. */
  lemma LoanQuietKeeps(b: Books, after: Books, l: nat, account: Account)
    requires Inv(b) && after == b.(loans := after.loans) && SoundTerms(after.loans)
    requires l <= |b.loans| && |after.loans| == (if l == |b.loans| then l + 1 else |b.loans|)
    requires forall i :: 0 <= i < |b.loans| && i != l ==> after.loans[i] == b.loans[i]
    requires !Out(after.loans[l].status) && (l < |b.loans| ==> !Out(b.loans[l].status))
    requires l < |b.loans| ==> after.loans[l] == b.loans[l].(status := after.loans[l].status)
    ensures Keeps(b, after, account)
  {
    OnlyLoanRow(b, after, l);
    QuietStep(b, after, 0, l, account);
    LoanQuietLending(b, after, l);
  }

  lemma LoanQuietLending(b: Books, after: Books, l: nat)
    requires LendingOk(b) && after == b.(loans := after.loans) && SoundTerms(after.loans)
    requires l <= |b.loans| && |after.loans| == (if l == |b.loans| then l + 1 else |b.loans|)
    requires forall i :: 0 <= i < |b.loans| && i != l ==> after.loans[i] == b.loans[i]
    requires !Out(after.loans[l].status) && (l < |b.loans| ==> !Out(b.loans[l].status))
    requires l < |b.loans| ==> after.loans[l] == b.loans[l].(status := after.loans[l].status)
    requires l == |b.loans| ==> Find(after.txs, Source(LoanDisbursement, l)).None?
    ensures LendingOk(after)
  {
    UnknownLoanIsUnpaid(b, l);
  }

  lemma ApplyForLoanKeeps(b: Books, member: nat, principal: int, term: int, tenured: bool, account: Account)
    requires Inv(b)
    ensures Keeps(b, ApplyForLoan(b, member, principal, term, tenured).0, account)
  {
    var after := ApplyForLoan(b, member, principal, term, tenured).0;
    if after != b {
      LoanQuietKeeps(b, after, |b.loans|, account);
    }
  }

  lemma MoveLoanKeeps(b: Books, l: nat, to: LoanStatus, account: Account)
    requires Inv(b)
    ensures Keeps(b, MoveLoan(b, l, to).0, account)
  {
    var (after, outcome) := MoveLoan(b, l, to);
    if !outcome.Refused? {
      LoanQuietKeeps(b, after, l, account);
    }
  }

  lemma DisburseKeeps(b: Books, l: nat, today: Date, account: Account)
    requires Inv(b)
    ensures Keeps(b, Disburse(b, l, today).0, account)
  {
    var after := Disburse(b, l, today).0;
    if after != b {
      OnlyLoanRow(b, after, l);
      PairIsBalanced(b.chama, LOANS_RECEIVABLE, CASH, b.loans[l].principal);
      PostingStep(b, after, 0, l, account);
      DisburseLending(b, after, l, today);
      SavingSurvives(b, after, Source(LoanDisbursement, l));
      FeesSurvive(b, after, Source(LoanDisbursement, l));
    }
  }

  lemma DisburseLending(b: Books, after: Books, l: nat, today: Date)
    requires LendingOk(b) && after == Disburse(b, l, today).0 && after != b
    requires OthersKeptBut(b.txs, after.txs, Source(LoanDisbursement, l))
    requires Standing(after.txs, Source(LoanDisbursement, l))
    ensures LendingOk(after)
  {
  }

  /** Repayment rows changed in one place; loans may change status while they stay out. */
  lemma OnlyRepaymentRow(b: Books, after: Books, r: nat)
    requires after.chama == b.chama && LoanEntries(b.chama, after.loans) == LoanEntries(b.chama, b.loans)
    requires after.payouts == b.payouts && after.contributions == b.contributions && after.feePayments == b.feePayments
    requires r <= |b.repayments| && |after.repayments| == (if r == |b.repayments| then r + 1 else |b.repayments|)
    requires forall i :: 0 <= i < |b.repayments| && i != r ==> after.repayments[i] == b.repayments[i]
    requires r < |b.repayments| ==> after.repayments[r] == b.repayments[r].(confirmed := after.repayments[r].confirmed)
    ensures OnlyRow(Tables(b), Tables(after), 1, r)
  {
  }

  lemma SameLoanEntries(chama: nat, loans: seq<Loan>, l: nat, status: LoanStatus)
    requires l < |loans| && Out(status) && Out(loans[l].status)
    ensures LoanEntries(chama, loans[l := loans[l].(status := status)]) == LoanEntries(chama, loans)
  {
  }

  lemma RecordRepaymentKeeps(b: Books, l: nat, amount: int, account: Account)
    requires Inv(b)
    ensures Keeps(b, RecordRepayment(b, l, amount).0, account)
  {
    var after := RecordRepayment(b, l, amount).0;
    if after != b {
      var row := after.repayments[|b.repayments|];
      RepaymentPostKeeps(b, after, after.loans[l].status, row, account);
    }
  }

  /** A repayment row is posted; its loan stays out and the portions fit what is still owed. */
  lemma RepaymentPostKeeps(b: Books, after: Books, status: LoanStatus, row: Repayment, account: Account)
    requires Inv(b) && RepaymentOk(b.loans, row) && row.confirmed && Out(status)
    requires row.principalPortion <= b.loans[row.loan].principal - PaidPrincipal(b.repayments, row.loan)
    requires row.interestPortion <= Interest(b.loans[row.loan]) - PaidInterest(b.repayments, row.loan)
    requires after == b.(loans := b.loans[row.loan := b.loans[row.loan].(status := status)], repayments := b.repayments + [row],
                         txs := b.txs + [PostingOf(b.chama, RepaymentEntry(b.chama, |b.repayments|, row))])
    ensures Keeps(b, after, account)
  {
    var r := |b.repayments|;
    SameLoanEntries(b.chama, b.loans, row.loan, status);
    OnlyRepaymentRow(b, after, r);
    RepaymentIsBalanced(b.chama, row.amount, row.principalPortion, row.interestPortion);
    PostingStep(b, after, 1, r, account);
    RepaymentPostLending(b, after, status, row);
    SavingSurvives(b, after, Source(LoanRepayment, r));
    FeesSurvive(b, after, Source(LoanRepayment, r));
  }

  lemma RepaymentPostLending(b: Books, after: Books, status: LoanStatus, row: Repayment)
    requires LendingOk(b) && RepaymentOk(b.loans, row) && Out(status)
    requires row.principalPortion <= b.loans[row.loan].principal - PaidPrincipal(b.repayments, row.loan)
    requires row.interestPortion <= Interest(b.loans[row.loan]) - PaidInterest(b.repayments, row.loan)
    requires after.loans == b.loans[row.loan := b.loans[row.loan].(status := status)]
    requires after.repayments == b.repayments + [row]
    requires OthersKeptBut(b.txs, after.txs, Source(LoanRepayment, |b.repayments|))
    requires Standing(after.txs, Source(LoanRepayment, |b.repayments|))
    ensures LendingOk(after)
  {
    LoansStayOut(b.txs, after.txs, Source(LoanRepayment, |b.repayments|), b.loans, row.loan, status);
    RecordedRepayments(b.txs, after.txs, b.loans, b.repayments, row, status);
    RecordedIsSafe(b.loans, b.repayments, row, status);
  }

  lemma PaidAfterPush(rows: seq<Repayment>, row: Repayment, l: nat)
    ensures PaidPrincipal(rows + [row], l) == PaidPrincipal(rows, l) + if row.loan == l && row.confirmed then row.principalPortion else 0
    ensures PaidInterest(rows + [row], l) == PaidInterest(rows, l) + if row.loan == l && row.confirmed then row.interestPortion else 0
  {
    var p, i := PrincipalItems(rows + [row])[|rows|], InterestItems(rows + [row])[|rows|];
    assert PrincipalItems(rows + [row]) == PrincipalItems(rows) + [p];
    assert InterestItems(rows + [row]) == InterestItems(rows) + [i];
    AfterPush(PrincipalItems(rows), p, l);
    AfterPush(InterestItems(rows), i, l);
  }

  /** A loan that is out may take another status that is out. */
  lemma LoansStayOut(
      txs: seq<Transaction>, later: seq<Transaction>, source: Source, loans: seq<Loan>, l: nat,
      status: LoanStatus)
    requires LoansOk(txs, loans) && l < |loans| && Out(loans[l].status) && Out(status)
    requires OthersKeptBut(txs, later, source) && source.kind != LoanDisbursement
    ensures LoansOk(later, loans[l := loans[l].(status := status)])
  {
  }

  lemma RecordedRepayments(
      txs: seq<Transaction>, later: seq<Transaction>, loans: seq<Loan>, rows: seq<Repayment>, row: Repayment, status: LoanStatus)
    requires RepaymentsOk(txs, loans, rows) && RepaymentOk(loans, row) && Out(status)
    requires OthersKeptBut(txs, later, Source(LoanRepayment, |rows|)) && Standing(later, Source(LoanRepayment, |rows|))
    ensures RepaymentsOk(later, loans[row.loan := loans[row.loan].(status := status)], rows + [row])
  {
  }

  lemma RecordedIsSafe(loans: seq<Loan>, rows: seq<Repayment>, row: Repayment, status: LoanStatus)
    requires SoundTerms(loans) && LoanSafe(loans, rows) && row.loan < |loans|
    requires 0 <= row.principalPortion <= loans[row.loan].principal - PaidPrincipal(rows, row.loan)
    requires 0 <= row.interestPortion <= Interest(loans[row.loan]) - PaidInterest(rows, row.loan)
    ensures LoanSafe(loans[row.loan := loans[row.loan].(status := status)], rows + [row])
  {
    forall x | 0 <= x < |loans|
      ensures 0 <= PaidPrincipal(rows + [row], x) <= loans[x].principal
      ensures 0 <= PaidInterest(rows + [row], x) <= Interest(loans[x])
    {
      PaidAfterPush(rows, row, x);
    }
  }

  lemma PaidAfterReversal(rows: seq<Repayment>, r: nat, l: nat)
    requires r < |rows| && rows[r].confirmed
    ensures var after := rows[r := rows[r].(confirmed := false)];
            && PaidPrincipal(after, l) == PaidPrincipal(rows, l) - (if rows[r].loan == l then rows[r].principalPortion else 0)
            && PaidInterest(after, l) == PaidInterest(rows, l) - (if rows[r].loan == l then rows[r].interestPortion else 0)
  {
    var after := rows[r := rows[r].(confirmed := false)];
    InExceptAt(PrincipalItems(rows), PrincipalItems(after), l, r);
    InExceptAt(InterestItems(rows), InterestItems(after), l, r);
  }

  lemma PaidIsAtLeast(txs: seq<Transaction>, loans: seq<Loan>, rows: seq<Repayment>, r: nat)
    requires RepaymentsOk(txs, loans, rows) && r < |rows| && rows[r].confirmed
    ensures 0 <= rows[r].principalPortion <= PaidPrincipal(rows, rows[r].loan)
    ensures 0 <= rows[r].interestPortion <= PaidInterest(rows, rows[r].loan)
  {
    InBounds(PrincipalItems(rows), rows[r].loan);
    InBounds(InterestItems(rows), rows[r].loan);
    assert PrincipalItems(rows)[r].value == rows[r].principalPortion;
    assert InterestItems(rows)[r].value == rows[r].interestPortion;
  }

  lemma ReverseRepaymentKeeps(b: Books, l: nat, r: nat, view: Visibility, crash: bool, account: Account)
    requires Inv(b)
    ensures Keeps(b, ReverseRepayment(b, l, r, view, crash).0, account)
  {
    var outcome := ReverseRepayment(b, l, r, view, crash).1;
    if outcome == Crashed {
      RepaymentCrashKeeps(b, l, r, view, account);
    } else if outcome == Done {
      RepaymentReversalKeeps(b, l, r, view, account);
    }
  }

  lemma RepaymentCrashKeeps(b: Books, l: nat, r: nat, view: Visibility, account: Account)
    requires Inv(b) && ReverseRepayment(b, l, r, view, true).1 == Crashed
    ensures Keeps(b, ReverseRepayment(b, l, r, view, true).0, account)
  {
    assert b.loans[l := b.loans[l].(status := b.loans[l].status)] == b.loans;
    assert b.repayments[r := b.repayments[r].(confirmed := true)] == b.repayments;
    assert RepaymentOk(b.loans, b.repayments[r]);
    RepaymentUndoKeeps(b, ReverseRepayment(b, l, r, view, true).0, l, b.loans[l].status, r, true, account);
  }

  lemma RepaymentReversalKeeps(b: Books, l: nat, r: nat, view: Visibility, account: Account)
    requires Inv(b) && ReverseRepayment(b, l, r, view, false).1 == Done
    ensures Keeps(b, ReverseRepayment(b, l, r, view, false).0, account)
  {
    var after := ReverseRepayment(b, l, r, view, false).0;
    StatusStaysOut(b, l, r, view);
    RepaymentUndoKeeps(b, after, l, after.loans[l].status, r, false, account);
  }

  lemma StatusStaysOut(b: Books, l: nat, r: nat, view: Visibility)
    requires LendingOk(b) && ReverseRepayment(b, l, r, view, false).1 == Done
    ensures Out(b.loans[l].status) && Out(ReverseRepayment(b, l, r, view, false).0.loans[l].status)
  {
    assert RepaymentOk(b.loans, b.repayments[r]);
  }

  /** The posting is undone; the row keeps or drops its confirmation and the loan stays out. */
  lemma RepaymentUndoKeeps(b: Books, after: Books, l: nat, status: LoanStatus, r: nat, confirmed: bool, account: Account)
    requires Inv(b) && l < |b.loans| && r < |b.repayments| && b.repayments[r].confirmed && b.repayments[r].loan == l
    requires Out(status) && Out(b.loans[l].status)
    requires after == b.(loans := b.loans[l := b.loans[l].(status := status)],
                         repayments := b.repayments[r := b.repayments[r].(confirmed := confirmed)],
                         txs := Undo(b.chama, b.txs, RepaymentEntry(b.chama, r, b.repayments[r])))
    ensures Keeps(b, after, account)
  {
    RepaymentUndoPostings(b, after, l, status, r, confirmed, account);
    RepaymentUndoLending(b, after, l, status, r, confirmed);
    SavingSurvives(b, after, Source(LoanRepayment, r));
    FeesSurvive(b, after, Source(LoanRepayment, r));
  }

  lemma RepaymentUndoPostings(
      b: Books, after: Books, l: nat, status: LoanStatus, r: nat, confirmed: bool, account: Account)
    requires PostingsOk(b) && l < |b.loans| && r < |b.repayments| && b.repayments[r].confirmed
    requires Out(status) && Out(b.loans[l].status)
    requires after == b.(loans := b.loans[l := b.loans[l].(status := status)],
                         repayments := b.repayments[r := b.repayments[r].(confirmed := confirmed)],
                         txs := Undo(b.chama, b.txs, RepaymentEntry(b.chama, r, b.repayments[r])))
    ensures PostingsOk(after) && (Reconciled(b, account) ==> Reconciled(after, account))
    ensures OthersKeptBut(b.txs, after.txs, Source(LoanRepayment, r))
    ensures Find(after.txs, Source(LoanRepayment, r)) == Find(b.txs, Source(LoanRepayment, r))
  {
    SameLoanEntries(b.chama, b.loans, l, status);
    OnlyRepaymentRow(b, after, r);
    ReversalStep(b, after, 1, r, account);
  }

  lemma RepaymentUndoLending(b: Books, after: Books, l: nat, status: LoanStatus, r: nat, confirmed: bool)
    requires LendingOk(b) && l < |b.loans| && r < |b.repayments| && b.repayments[r].confirmed
    requires Out(status) && Out(b.loans[l].status)
    requires after.loans == b.loans[l := b.loans[l].(status := status)]
    requires after.repayments == b.repayments[r := b.repayments[r].(confirmed := confirmed)]
    requires OthersKeptBut(b.txs, after.txs, Source(LoanRepayment, r))
    requires Find(after.txs, Source(LoanRepayment, r)) == Find(b.txs, Source(LoanRepayment, r))
    ensures LendingOk(after)
  {
    UndoIsSafe(b.txs, b.loans, b.repayments, l, status, r, confirmed);
    UndoKeepsRepayments(b.txs, after.txs, b.loans, b.repayments, l, status, r, confirmed);
    LoansStayOut(b.txs, after.txs, Source(LoanRepayment, r), b.loans, l, status);
  }

  lemma UndoKeepsRepayments(
      txs: seq<Transaction>, later: seq<Transaction>, loans: seq<Loan>, rows: seq<Repayment>,
      l: nat, status: LoanStatus, r: nat, confirmed: bool)
    requires RepaymentsOk(txs, loans, rows) && l < |loans| && r < |rows| && Out(status)
    requires OthersKeptBut(txs, later, Source(LoanRepayment, r))
    requires Find(later, Source(LoanRepayment, r)) == Find(txs, Source(LoanRepayment, r))
    ensures RepaymentsOk(later, loans[l := loans[l].(status := status)], rows[r := rows[r].(confirmed := confirmed)])
  {
  }

  lemma UndoIsSafe(
      txs: seq<Transaction>, loans: seq<Loan>, rows: seq<Repayment>, l: nat, status: LoanStatus, r: nat,
      confirmed: bool)
    requires SoundTerms(loans) && LoanSafe(loans, rows) && RepaymentsOk(txs, loans, rows)
    requires l < |loans| && r < |rows| && rows[r].confirmed
    ensures LoanSafe(loans[l := loans[l].(status := status)], rows[r := rows[r].(confirmed := confirmed)])
  {
    var later := rows[r := rows[r].(confirmed := confirmed)];
    PaidIsAtLeast(txs, loans, rows, r);
    forall x | 0 <= x < |loans|
      ensures 0 <= PaidPrincipal(later, x) <= loans[x].principal
      ensures 0 <= PaidInterest(later, x) <= Interest(loans[x])
    {
      if confirmed {
        assert later == rows;
      } else {
        PaidAfterReversal(rows, r, x);
      }
    }
  }

  // ----- payouts --------------------------------------------------------------------------------

  lemma OnlyPayoutRow(b: Books, after: Books, p: nat)
    requires after.chama == b.chama && after.loans == b.loans && after.repayments == b.repayments
    requires after.contributions == b.contributions && after.feePayments == b.feePayments
    requires p <= |b.payouts| && |after.payouts| == (if p == |b.payouts| then p + 1 else |b.payouts|)
    requires forall i :: 0 <= i < |b.payouts| && i != p ==> after.payouts[i] == b.payouts[i]
    requires p < |b.payouts| ==> after.payouts[p].amount == b.payouts[p].amount
    ensures OnlyRow(Tables(b), Tables(after), 2, p)
  {
  }

  /** A payout appears or moves without touching money. */
  lemma PayoutQuietKeeps(b: Books, after: Books, p: nat, account: Account)
    requires Inv(b) && after == b.(payouts := after.payouts)
    requires p <= |b.payouts| && |after.payouts| == (if p == |b.payouts| then p + 1 else |b.payouts|)
    requires forall i :: 0 <= i < |b.payouts| && i != p ==> after.payouts[i] == b.payouts[i]
    requires after.payouts[p].amount > 0 && after.payouts[p].status !in {Completed, PaidBack}
    requires p < |b.payouts| ==> b.payouts[p].status !in {Completed, PaidBack} && after.payouts[p].amount == b.payouts[p].amount
    ensures Keeps(b, after, account)
  {
    OnlyPayoutRow(b, after, p);
    QuietStep(b, after, 2, p, account);
  }

  lemma RequestPayoutKeeps(b: Books, member: nat, amount: int, account: Account)
    requires Inv(b)
    ensures Keeps(b, RequestPayout(b, member, amount).0, account)
  {
    var after := RequestPayout(b, member, amount).0;
    if after != b {
      PayoutQuietKeeps(b, after, |b.payouts|, account);
    }
  }

  lemma MovePayoutKeeps(b: Books, p: nat, to: PayoutStatus, account: Account)
    requires Inv(b)
    ensures Keeps(b, MovePayout(b, p, to).0, account)
  {
    var (after, outcome) := MovePayout(b, p, to);
    if !outcome.Refused? {
      PayoutQuietKeeps(b, after, p, account);
    }
  }

  lemma CompletePayoutKeeps(b: Books, p: nat, account: Account)
    requires Inv(b)
    ensures Keeps(b, CompletePayout(b, p).0, account)
  {
    var after := CompletePayout(b, p).0;
    if after != b {
      OnlyPayoutRow(b, after, p);
      PairIsBalanced(b.chama, SHARE_CAPITAL, CASH, b.payouts[p].amount);
      PostingStep(b, after, 2, p, account);
      LendingSurvives(b, after, Source(PayoutCompletion, p));
      FeesSurvive(b, after, Source(PayoutCompletion, p));
      PayoutSaving(b, after, p);
    }
  }

  lemma ReversePayoutKeeps(b: Books, p: nat, crash: bool, account: Account)
    requires Inv(b)
    ensures Keeps(b, ReversePayout(b, p, crash).0, account)
  {
    var (after, outcome) := ReversePayout(b, p, crash);
    if !outcome.Refused? {
      OnlyPayoutRow(b, after, p);
      ReversalStep(b, after, 2, p, account);
      LendingSurvives(b, after, Source(PayoutCompletion, p));
      FeesSurvive(b, after, Source(PayoutCompletion, p));
      PayoutSaving(b, after, p);
    }
  }

  lemma PayoutSaving(b: Books, after: Books, p: nat)
    requires SavingOk(b) && after == b.(payouts := after.payouts, txs := after.txs)
    requires p < |b.payouts| == |after.payouts| && after.payouts == b.payouts[p := after.payouts[p]]
    requires after.payouts[p].amount == b.payouts[p].amount && after.payouts[p].status in {Completed, PaidBack}
    requires OthersKeptBut(b.txs, after.txs, Source(PayoutCompletion, p))
    requires Find(after.txs, Source(PayoutCompletion, p)).Some?
    ensures SavingOk(after)
  {
  }

  // ----- contributions and shares ---------------------------------------------------------------

  lemma OnlyContributionRow(b: Books, after: Books, c: nat)
    requires after.chama == b.chama && after.loans == b.loans && after.repayments == b.repayments
    requires after.payouts == b.payouts && after.feePayments == b.feePayments
    requires c <= |b.contributions| && |after.contributions| == (if c == |b.contributions| then c + 1 else |b.contributions|)
    requires forall i :: 0 <= i < |b.contributions| && i != c ==> after.contributions[i] == b.contributions[i]
    requires c < |b.contributions| ==> after.contributions[c] == b.contributions[c].(status := after.contributions[c].status)
    ensures OnlyRow(Tables(b), Tables(after), 3, c)
  {
  }

  lemma RecordContributionKeeps(b: Books, member: nat, amount: int, period: int, account: Account)
    requires Inv(b)
    ensures Keeps(b, RecordContribution(b, member, amount, period).0, account)
  {
    var after := RecordContribution(b, member, amount, period).0;
    if after != b {
      OnlyContributionRow(b, after, |b.contributions|);
      QuietStep(b, after, 3, |b.contributions|, account);
      RecordContributionSaving(b, after, member, amount, period);
    }
  }

  lemma RecordContributionSaving(b: Books, after: Books, member: nat, amount: int, period: int)
    requires SavingOk(b) && after == RecordContribution(b, member, amount, period).0 && after != b
    requires Find(b.txs, Source(ContributionConfirmation, |b.contributions|)).None?
    ensures SavingOk(after)
  {
    var n := |b.contributions|;
    forall m: nat ensures ActiveUnits(after.shares, m) == ConfirmedUnits(after.contributions, b.price, m) {
      assert ActiveUnits(b.shares, m) == ConfirmedUnits(b.contributions, b.price, m);
      var items := ConfirmedUnitItems(after.contributions, b.price);
      assert items == ConfirmedUnitItems(b.contributions, b.price) + [items[n]];
      AfterPush(ConfirmedUnitItems(b.contributions, b.price), items[n], m);
    }
    assert OneOpenPerPeriod(after.contributions);
    RecordedSharesOk(b.price, b.contributions, b.shares, after.contributions[n]);
  }

  lemma RecordedSharesOk(price: int, rows: seq<Contribution>, shares: seq<Share>, row: Contribution)
    requires price > 0 && SharesOk(price, rows, shares) && row.status == Pending
    ensures SharesOk(price, rows + [row], shares)
  {
  }

  lemma SettleKeeps(b: Books, c: nat, tolerant: bool, account: Account)
    requires Inv(b)
    ensures Keeps(b, Settle(b, c, tolerant).0, account)
  {
    var after := Settle(b, c, tolerant).0;
    if after != b {
      OnlyContributionRow(b, after, c);
      PairIsBalanced(b.chama, CASH, SHARE_CAPITAL, b.contributions[c].amount);
      PostingStep(b, after, 3, c, account);
      LendingSurvives(b, after, Source(ContributionConfirmation, c));
      FeesSurvive(b, after, Source(ContributionConfirmation, c));
      SettledContributions(b, after, c);
      SettledShares(b.price, b.contributions, b.shares, c);
      SettledUnits(b.price, b.contributions, b.shares, c);
    }
  }

  /** A contribution moves to CONFIRMED or REVERSED together with its posting. */
  lemma SettledContributions(b: Books, after: Books, c: nat)
    requires SavingOk(b) && c < |b.contributions| && after.payouts == b.payouts
    requires |after.contributions| == |b.contributions|
    requires after.contributions == b.contributions[c := b.contributions[c].(status := after.contributions[c].status)]
    requires after.contributions[c].status != Pending && b.contributions[c].amount > 0
    requires b.contributions[c].status != Reversed
    requires OthersKeptBut(b.txs, after.txs, Source(ContributionConfirmation, c))
    requires Find(after.txs, Source(ContributionConfirmation, c)).Some?
    requires after.contributions[c].status == Confirmed ==> Standing(after.txs, Source(ContributionConfirmation, c))
    ensures PayoutsOk(after.txs, after.payouts) && ContributionsOk(after.txs, after.contributions)
    ensures OneOpenPerPeriod(after.contributions)
  {
  }

  lemma SettledShares(price: int, rows: seq<Contribution>, shares: seq<Share>, c: nat)
    requires price > 0 && SharesOk(price, rows, shares) && c < |rows| && rows[c].status == Pending
    ensures SharesOk(price, rows[c := rows[c].(status := Confirmed)],
                     shares + [Share(rows[c].member, c, UnitsFor(rows[c].amount, price), true)])
  {
    var later := rows[c := rows[c].(status := Confirmed)];
    var issued := shares + [Share(rows[c].member, c, UnitsFor(rows[c].amount, price), true)];
    forall s | 0 <= s < |shares| ensures ShareOk(price, later, issued[s]) && issued[s].contribution != c {
      assert ShareOk(price, rows, shares[s]);
    }
    forall d | 0 <= d < |later| && later[d].status != Pending
      ensures exists s :: 0 <= s < |issued| && issued[s].contribution == d
    {
      if d == c {
        assert issued[|shares|].contribution == d;
      } else {
        var s :| 0 <= s < |shares| && shares[s].contribution == d;
        assert issued[s].contribution == d;
      }
    }
  }

  lemma SettledUnits(price: int, rows: seq<Contribution>, shares: seq<Share>, c: nat)
    requires price > 0 && UnitsOk(price, rows, shares) && c < |rows| && rows[c].status == Pending
    ensures UnitsOk(price, rows[c := rows[c].(status := Confirmed)],
                    shares + [Share(rows[c].member, c, UnitsFor(rows[c].amount, price), true)])
  {
    var later := rows[c := rows[c].(status := Confirmed)];
    var issued := shares + [Share(rows[c].member, c, UnitsFor(rows[c].amount, price), true)];
    forall m: nat ensures ActiveUnits(issued, m) == ConfirmedUnits(later, price, m) {
      assert ActiveUnits(shares, m) == ConfirmedUnits(rows, price, m);
      assert UnitItems(issued) == UnitItems(shares) + [UnitItems(issued)[|shares|]];
      AfterPush(UnitItems(shares), UnitItems(issued)[|shares|], m);
      InExceptAt(ConfirmedUnitItems(rows, price), ConfirmedUnitItems(later, price), m, c);
    }
  }

  lemma ReverseContributionKeeps(b: Books, c: nat, account: Account)
    requires Inv(b)
    ensures Keeps(b, ReverseContribution(b, c).0, account)
  {
    var (after, outcome) := ReverseContribution(b, c);
    if !outcome.Refused? {
      OnlyContributionRow(b, after, c);
      ReversalStep(b, after, 3, c, account);
      LendingSurvives(b, after, Source(ContributionConfirmation, c));
      FeesSurvive(b, after, Source(ContributionConfirmation, c));
      SettledContributions(b, after, c);
      CancelledShares(b.price, b.contributions, b.shares, c);
      var s := ShareOf(b.price, b.contributions, b.shares, c);
      CancelledUnits(b.price, b.contributions, b.shares, c, s);
    }
  }

  /** The one share of a settled contribution. */
  lemma ShareOf(price: int, rows: seq<Contribution>, shares: seq<Share>, c: nat) returns (s: nat)
    requires price > 0 && SharesOk(price, rows, shares) && c < |rows| && rows[c].status != Pending
    ensures s < |shares| && shares[s].contribution == c && ShareOk(price, rows, shares[s])
    ensures forall t :: 0 <= t < |shares| && t != s ==> shares[t].contribution != c
  {
    s :| 0 <= s < |shares| && shares[s].contribution == c;
  }

  lemma CancelledShares(price: int, rows: seq<Contribution>, shares: seq<Share>, c: nat)
    requires price > 0 && SharesOk(price, rows, shares) && c < |rows| && rows[c].status == Confirmed
    ensures SharesOk(price, rows[c := rows[c].(status := Reversed)], CancelShares(shares, c))
  {
    var later := rows[c := rows[c].(status := Reversed)];
    var cancelled := CancelShares(shares, c);
    forall s | 0 <= s < |shares| ensures ShareOk(price, later, cancelled[s]) && cancelled[s].contribution == shares[s].contribution {
      assert ShareOk(price, rows, shares[s]);
    }
    forall d | 0 <= d < |later| && later[d].status != Pending
      ensures exists s :: 0 <= s < |cancelled| && cancelled[s].contribution == d
    {
      var s :| 0 <= s < |shares| && shares[s].contribution == d;
      assert cancelled[s].contribution == d;
    }
  }

  lemma CancelledUnits(price: int, rows: seq<Contribution>, shares: seq<Share>, c: nat, s: nat)
    requires price > 0 && UnitsOk(price, rows, shares) && c < |rows| && rows[c].status == Confirmed
    requires s < |shares| && shares[s].contribution == c && ShareOk(price, rows, shares[s])
    requires forall t :: 0 <= t < |shares| && t != s ==> shares[t].contribution != c
    ensures UnitsOk(price, rows[c := rows[c].(status := Reversed)], CancelShares(shares, c))
  {
    var later := rows[c := rows[c].(status := Reversed)];
    forall m: nat ensures ActiveUnits(CancelShares(shares, c), m) == ConfirmedUnits(later, price, m) {
      assert ActiveUnits(shares, m) == ConfirmedUnits(rows, price, m);
      InExceptAt(UnitItems(shares), UnitItems(CancelShares(shares, c)), m, s);
      InExceptAt(ConfirmedUnitItems(rows, price), ConfirmedUnitItems(later, price), m, c);
    }
  }

  // ----- registration fees ----------------------------------------------------------------------

  lemma OnlyFeeRow(b: Books, after: Books, p: nat)
    requires after.chama == b.chama && after.loans == b.loans && after.repayments == b.repayments
    requires after.payouts == b.payouts && after.contributions == b.contributions
    requires p <= |b.feePayments| && |after.feePayments| == (if p == |b.feePayments| then p + 1 else |b.feePayments|)
    requires forall i :: 0 <= i < |b.feePayments| && i != p ==> after.feePayments[i] == b.feePayments[i]
    requires p < |b.feePayments| ==> after.feePayments[p] == b.feePayments[p].(confirmed := after.feePayments[p].confirmed)
    ensures OnlyRow(Tables(b), Tables(after), 4, p)
  {
  }

  /** Fee rows alone never move money. */
  lemma FeeQuietKeeps(b: Books, after: Books, account: Account)
    requires Inv(b) && after == b.(fees := after.fees) && FeesSettled(after)
    ensures Keeps(b, after, account)
  {
  }

  lemma OpenFeeKeeps(b: Books, member: nat, amount: int, account: Account)
    requires Inv(b)
    ensures Keeps(b, OpenFee(b, member, amount).0, account)
  {
    var after := OpenFee(b, member, amount).0;
    if after != b {
      OpenedFees(b.txs, b.fees, b.feePayments, Fee(member, amount, Owed));
      FeeQuietKeeps(b, after, account);
    }
  }

  lemma OpenedFees(txs: seq<Transaction>, fees: seq<Fee>, payments: seq<FeePayment>, row: Fee)
    requires FeesOk(fees, payments) && FeePaymentsOk(txs, fees, payments) && row.amount >= 0 && row.status == Owed
    requires forall f :: 0 <= f < |fees| ==> fees[f].member != row.member
    ensures FeesOk(fees + [row], payments) && FeePaymentsOk(txs, fees + [row], payments)
  {
    InAbsentGroup(FeePaidItems(payments), |fees|);
  }

  lemma WaiveFeeKeeps(b: Books, f: nat, account: Account)
    requires Inv(b)
    ensures Keeps(b, WaiveFee(b, f).0, account)
  {
    FeeQuietKeeps(b, WaiveFee(b, f).0, account);
  }

  lemma PayFeeKeeps(b: Books, f: nat, account: Account)
    requires Inv(b)
    ensures Keeps(b, PayFee(b, f).0, account)
  {
    var after := PayFee(b, f).0;
    if after != b {
      var p := |b.feePayments|;
      OnlyFeeRow(b, after, p);
      PairIsBalanced(b.chama, CASH, REGISTRATION_FEES, b.fees[f].amount);
      PostingStep(b, after, 4, p, account);
      LendingSurvives(b, after, Source(RegistrationFeePayment, p));
      SavingSurvives(b, after, Source(RegistrationFeePayment, p));
      PaidFees(b.fees, b.feePayments, f);
      PaidFeePayments(b, after, f);
    }
  }

  lemma PaidFees(fees: seq<Fee>, payments: seq<FeePayment>, f: nat)
    requires FeesOk(fees, payments) && f < |fees| && fees[f].status == Owed && fees[f].amount > 0
    ensures FeesOk(fees[f := fees[f].(status := Paid)], payments + [FeePayment.FeePayment(f, fees[f].amount, true)])
  {
    var row := FeePayment.FeePayment(f, fees[f].amount, true);
    var later := payments + [row];
    assert FeePaidItems(later) == FeePaidItems(payments) + [FeePaidItems(later)[|payments|]];
    assert later[..|payments|] == payments;
    forall g | 0 <= g < |fees|
      ensures In(FeePaidItems(later), g) == In(FeePaidItems(payments), g) + if g == f then row.amount else 0
      ensures ConfirmedPayment(later, g) == if g == f then Some(|payments|) else ConfirmedPayment(payments, g)
    {
      AfterPush(FeePaidItems(payments), FeePaidItems(later)[|payments|], g);
    }
  }

  lemma PaidFeePayments(b: Books, after: Books, f: nat)
    requires FeesSettled(b) && after == PayFee(b, f).0 && after != b
    requires OthersKeptBut(b.txs, after.txs, Source(RegistrationFeePayment, |b.feePayments|))
    requires Standing(after.txs, Source(RegistrationFeePayment, |b.feePayments|))
    ensures FeePaymentsOk(after.txs, after.fees, after.feePayments)
  {
    var n := |b.feePayments|;
    assert after.feePayments == b.feePayments + [FeePayment.FeePayment(f, b.fees[f].amount, true)];
    forall q | 0 <= q < n
      ensures Find(after.txs, Source(RegistrationFeePayment, q)).Some?
      ensures !(b.feePayments[q].confirmed && b.feePayments[q].fee == f)
    {
      assert Find(after.txs, Source(RegistrationFeePayment, q)) == Find(b.txs, Source(RegistrationFeePayment, q));
    }
  }

  lemma ReverseFeeKeeps(b: Books, f: nat, crash: bool, account: Account)
    requires Inv(b)
    ensures Keeps(b, ReverseFee(b, f, crash).0, account)
  {
    var outcome := ReverseFee(b, f, crash).1;
    if outcome == Crashed {
      FeeCrashKeeps(b, f, account);
    } else if outcome == Done {
      FeeUnpayKeeps(b, f, account);
    }
  }

  lemma FeeCrashKeeps(b: Books, f: nat, account: Account)
    requires Inv(b) && ReverseFee(b, f, true).1 == Crashed
    ensures Keeps(b, ReverseFee(b, f, true).0, account)
  {
    var p := ConfirmedPayment(b.feePayments, f).value;
    assert b.feePayments[p := b.feePayments[p].(confirmed := true)] == b.feePayments;
    FeeUndoKeeps(b, ReverseFee(b, f, true).0, p, true, account);
  }

  lemma FeeUnpayKeeps(b: Books, f: nat, account: Account)
    requires Inv(b) && ReverseFee(b, f, false).1 == Done
    ensures Keeps(b, ReverseFee(b, f, false).0, account)
  {
    FeeUnpaid(b, f);
    FeeUndoKeeps(b, ReverseFee(b, f, false).0, ConfirmedPayment(b.feePayments, f).value, false, account);
  }

  lemma FeeUnpaid(b: Books, f: nat)
    requires FeesSettled(b) && ReverseFee(b, f, false).1 == Done
    ensures var p := ConfirmedPayment(b.feePayments, f).value;
            var after := ReverseFee(b, f, false).0;
            && after == b.(feePayments := b.feePayments[p := b.feePayments[p].(confirmed := false)], fees := after.fees,
                           txs := Undo(b.chama, b.txs, FeeEntry(b.chama, p, b.feePayments[p])))
            && FeesOk(after.fees, after.feePayments) && |after.fees| == |b.fees|
            && forall g :: 0 <= g < |b.fees| ==> after.fees[g].amount == b.fees[g].amount
  {
    UnpaidFees(b.txs, b.fees, b.feePayments, f);
  }

  lemma FeeUndoKeeps(b: Books, after: Books, p: nat, confirmed: bool, account: Account)
    requires Inv(b) && p < |b.feePayments| && b.feePayments[p].confirmed
    requires after == b.(feePayments := b.feePayments[p := b.feePayments[p].(confirmed := confirmed)], fees := after.fees,
                         txs := Undo(b.chama, b.txs, FeeEntry(b.chama, p, b.feePayments[p])))
    requires FeesOk(after.fees, after.feePayments) && |after.fees| == |b.fees|
    requires forall f :: 0 <= f < |b.fees| ==> after.fees[f].amount == b.fees[f].amount
    ensures Keeps(b, after, account)
  {
    OnlyFeeRow(b, after, p);
    ReversalStep(b, after, 4, p, account);
    LendingSurvives(b, after, Source(RegistrationFeePayment, p));
    SavingSurvives(b, after, Source(RegistrationFeePayment, p));
    UnpaidFeePayments(b, after, p);
  }

  lemma UnpaidFeePayments(b: Books, after: Books, p: nat)
    requires FeesSettled(b) && p < |b.feePayments| && |after.fees| == |b.fees| && |after.feePayments| == |b.feePayments|
    requires forall f :: 0 <= f < |b.fees| ==> after.fees[f].amount == b.fees[f].amount
    requires after.feePayments == b.feePayments[p := b.feePayments[p].(confirmed := after.feePayments[p].confirmed)]
    requires after.feePayments[p].confirmed ==> b.feePayments[p].confirmed
    requires OthersKeptBut(b.txs, after.txs, Source(RegistrationFeePayment, p))
    requires Find(after.txs, Source(RegistrationFeePayment, p)) == Find(b.txs, Source(RegistrationFeePayment, p))
    ensures FeePaymentsOk(after.txs, after.fees, after.feePayments)
  {
  }

  lemma UnpaidFees(txs: seq<Transaction>, fees: seq<Fee>, payments: seq<FeePayment>, f: nat)
    requires FeesOk(fees, payments) && FeePaymentsOk(txs, fees, payments) && f < |fees| && fees[f].status == Paid
    ensures var p := ConfirmedPayment(payments, f).value;
            FeesOk(fees[f := fees[f].(status := Owed)], payments[p := payments[p].(confirmed := false)])
  {
    var p := ConfirmedPayment(payments, f).value;
    var later := payments[p := payments[p].(confirmed := false)];
    forall g | 0 <= g < |fees|
      ensures In(FeePaidItems(later), g) == In(FeePaidItems(payments), g) - if g == f then fees[f].amount else 0
      ensures ConfirmedPayment(later, g).Some? <==> g != f && ConfirmedPayment(payments, g).Some?
    {
      InExceptAt(FeePaidItems(payments), FeePaidItems(later), g, p);
      UnconfirmedPayment(payments, p, g);
    }
  }

  lemma UnconfirmedPayment(payments: seq<FeePayment>, p: nat, g: nat)
    requires p < |payments| && payments[p].confirmed
    requires forall x, y :: 0 <= x < y < |payments| && payments[x].confirmed && payments[y].confirmed ==> payments[x].fee != payments[y].fee
    ensures ConfirmedPayment(payments[p := payments[p].(confirmed := false)], g).Some?
            <==> g != payments[p].fee && ConfirmedPayment(payments, g).Some?
  {
    var later := payments[p := payments[p].(confirmed := false)];
    var before := ConfirmedPayment(payments, g);
    if g != payments[p].fee && before.Some? {
      assert later[before.value].confirmed && later[before.value].fee == g;
    }
  }
}
