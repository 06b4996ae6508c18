/** What a loan costs, to the cent, and what its status says about it. */
module LoanTerms {
  import opened Wrappers
  import opened Money
  import opened Calendar
  import opened Ledger
  import opened Tally
  import opened Books
  import opened Reconciliation
  import opened Guarantees

  /** This many cents are principal times rate, rounded to the nearest cent, half a cent up. */
  ghost predicate NearestInterest(loan: Loan, cents: int) {
    cents as real - 0.5 <= loan.principal as real * loan.rate < cents as real + 0.5
  }

  /** The interest of a loan is the one whole number of cents nearest to principal times rate. */
  lemma InterestIsNearestCent(loan: Loan, cents: int)
    requires loan.principal >= 0 && loan.rate >= 0.0
    ensures Interest(loan) == cents <==> NearestInterest(loan, cents)
  {
    assert loan.principal as real * loan.rate >= 0.0;
    ExactInterest(loan.principal as real * loan.rate, Interest(loan), cents);
  }

  lemma ExactInterest(exact: real, interest: int, cents: int)
    requires exact >= 0.0 && interest == HalfUp(exact)
    ensures interest == cents <==> cents as real - 0.5 <= exact < cents as real + 0.5
  {
  }

  /** At the rate of five per cent that is the principal in twentieths, rounded half up. */
  lemma FivePerCent(loan: Loan)
    requires loan.principal >= 0 && loan.rate == 0.05
    ensures Interest(loan) == (loan.principal + 10) / 20
  {
    var cents := (loan.principal + 10) / 20;
    assert loan.principal as real * loan.rate == loan.principal as real / 20.0;
    assert 20 * cents <= loan.principal + 10 < 20 * cents + 20;
    Twentieths(loan.principal, cents);
    InterestIsNearestCent(loan, cents);
  }

  lemma Twentieths(principal: int, cents: int)
    requires 20 * cents <= principal + 10 < 20 * cents + 20
    ensures cents as real - 0.5 <= principal as real / 20.0 < cents as real + 0.5
  {
  }

  /** No repayment of this loan is confirmed. */
  ghost predicate Unpaid(b: Books, l: nat) {
    forall r :: 0 <= r < |b.repayments| && b.repayments[r].loan == l ==> !b.repayments[r].confirmed
  }

  lemma UnpaidOwesEverything(b: Books, l: nat)
    requires SoundTerms(b.loans) && l < |b.loans| && Unpaid(b, l)
    ensures PaidPrincipal(b.repayments, l) == 0 && PaidInterest(b.repayments, l) == 0
    ensures StillOwed(b, l) == b.loans[l].principal + Interest(b.loans[l])
  {
    InAbsentGroup(PrincipalItems(b.repayments), l);
    InAbsentGroup(InterestItems(b.repayments), l);
  }

  /** A newly disbursed loan owes its principal and the nearest cent of its interest, and nothing else. */
  lemma NewLoanOwes(b: Books, l: nat, today: Date, cents: int)
    requires LendingOk(b) && l < |b.loans| && Disburse(b, l, today).0 != b && NearestInterest(b.loans[l], cents)
    ensures var after := Disburse(b, l, today).0;
            && SoundTerms(after.loans) && |after.loans| == |b.loans| && after.loans[l].status == Disbursed
            && StillOwed(after, l) == b.loans[l].principal + cents
  {
    UnknownLoanIsUnpaid(b, l);
    InterestIsNearestCent(b.loans[l], cents);
  }

  /**
   One repayment of a DISBURSED loan that nobody has paid anything on: accepted up to principal plus interest, and the
   loan is REPAID by exactly that amount and by no smaller one.
   */
  lemma RepaidByExactly(b: Books, l: nat, cents: int, amount: int)
    requires LendingOk(b) && l < |b.loans| && b.loans[l].status == Disbursed && Unpaid(b, l) && NearestInterest(b.loans[l], cents)
    ensures var (after, outcome) := RecordRepayment(b, l, amount);
            && (outcome == Done <==> 0 < amount <= b.loans[l].principal + cents)
            && (outcome == Done ==>
                  && |after.loans| == |b.loans|
                  && (after.loans[l].status == Repaid <==> amount == b.loans[l].principal + cents))
  {
    UnpaidOwesEverything(b, l);
    InterestIsNearestCent(b.loans[l], cents);
  }

  /** Of a loan whose status is true: REPAID means that nothing is owed, DISBURSED that nothing was paid. */
  lemma StatusMeans(b: Books, l: nat)
    requires LendingOk(b) && StatusTrue(b) && l < |b.loans| && Out(b.loans[l].status)
    ensures b.loans[l].status == Repaid <==> StillOwed(b, l) == 0
    ensures b.loans[l].status == Disbursed <==> Unpaid(b, l)
  {
    if Unpaid(b, l) {
      UnpaidOwesEverything(b, l);
    } else {
      var r :| 0 <= r < |b.repayments| && b.repayments[r].loan == l && b.repayments[r].confirmed;
      SomethingIsPaid(b.loans, b.repayments, r);
    }
  }

  lemma SomethingIsPaid(loans: seq<Loan>, rows: seq<Repayment>, r: nat)
    requires forall s :: 0 <= s < |rows| ==> RepaymentOk(loans, rows[s])
    requires r < |rows| && rows[r].confirmed
    ensures PaidPrincipal(rows, rows[r].loan) + PaidInterest(rows, rows[r].loan) > 0
  {
    forall s | 0 <= s < |rows| ensures PrincipalItems(rows)[s].value >= 0 && InterestItems(rows)[s].value >= 0 {
      assert RepaymentOk(loans, rows[s]);
    }
    InBounds(PrincipalItems(rows), rows[r].loan);
    InBounds(InterestItems(rows), rows[r].loan);
    assert RepaymentOk(loans, rows[r]);
    assert PrincipalItems(rows)[r].value + InterestItems(rows)[r].value > 0;
  }
}
