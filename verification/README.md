# Chama money engine: a verified model

A Dafny model of the money side of a savings-group (Chama) backend, with proofs of what its services
promise. It covers the double-entry ledger; the four sub-ledgers that post to it (contributions and
shares, loans and repayments, payouts, registration fees); the commit points and crashes between them;
the lock on the Cash account; collecting money through a payment provider (intents, attempts, status
queries, the webhook inbox, Paybill confirmations); and the rate limiter, cursor pagination, month
arithmetic and monthly analytics.

Verify everything with `dafny verify dfyconfig.toml`.

## How it is built

- **Values.** Money is an integer number of cents, rates and raw amounts are reals, and every rounding is
  an explicit half-up function (`Money`). A row's id is its position in its table; a transaction's id
  is its position in the ledger.
- **Specification.** `Ledger`, `Books` and `Payments` give each request as a function from the committed
  state to the next one and the way the request ended. Crash points, the visibility of unflushed
  statuses and everything a provider may answer are arguments.
- **Services.** The classes (`LedgerService`, `Session`, `LoanService`, `PayoutService`,
  `ContributionService`, `RegistrationFeeService`, `PaymentService`, `RateLimiter`) have the loops, early returns and
  assignments of the services; each method is proved to do what its function says. `Desk` and `Portal`
  lift that to sequences of requests, so theorems about runs hold of the classes. Uncommitted changes are
  local variables; assigning a table is the commit.
- **Reconciliation.** A row that moves money owns an entry: its posting and whether its status counts.
  `Subledger` proves once, for any tables of entries, that a posting, a reversal or a quiet change moves
  ledger and rows alike. `Reconciliation` applies this to each of the sixteen operations, `Runs` to every run.
  `Flights` says exactly which rows are between the two commits of a reversal, so that runs without such a
  crash balance outright, and `Retries` that a crashed reversal can be finished at any later time.
- **Laws.** `Admission`, `Solvency`, `LoanTerms` and `Lives` say exactly which requests the books accept, that cash is
  never overspent, what a loan costs and which statuses follow which. `WebhookLaws` and `AttemptLaws` say exactly what a
  callback may do and when the provider is asked again.
- **Concurrency.** `ConcurrentPosting` interleaves the statements of any number of posting sessions,
  `CashLock` the steps of any number of disbursements and completions with unlocked deposits and reversals;
  `LoneWorkers` shows that an undisturbed worker does what the books' operation does.

## Findings

Where the code does less than its documentation says, the model follows the code:

- The production session does not flush before a query (app/db/session.py:16), so the loan status written by a
  repayment reversal comes from rows that still count the reversed repayment. `StaleStatusIsRightIff` says
  exactly when it is right anyway; `StaleViewBreaksTheStatus` is a concrete run where it is not.
- An intent that crashed after its first commit, or whose provider call timed out, can never be resolved,
  although app/services/payment_intent.py:25-28 says a TIMEOUT may later resolve.
  `ProcessingIntentMovesIff` gives the exact condition.
- Repeating a create request fails once the linked contribution has left PENDING, because the link is validated
  before the key is looked up (`RetryOfCreateFindsTheIntentIff`; a run in `IdenticalCreateIsRefusedOnceSettled`).
- A Paybill confirmation that crashes after its event is stored is never settled by a redelivery, unlike a webhook
  delivery, which is resumed (`CrashedDeliveriesConverge`). `CrashedConfirmationIsHarmlessIff` says exactly when
  nothing is lost; `CrashedPaybillIsNotPosted` is a run in which 600.00 is.
- Two intents may link one PENDING contribution. When both are paid, both are collected and one posting is made
  (`CollectionPostsIff`; a run in `PaidTwicePostedOnce`).
- Of two concurrent, identical reversals one may be refused as already reversed, although a retry of it would get
  the stored reversal. `MatchingReversalGetsTheIdIff` gives the exact condition, `IdenticalReversalIsRefused` a schedule.
- docs/11_V3_PAYMENT_ARCHITECTURE.md:184 says that after a failed callback a retry is available. It is not: the accepted
  attempt was never marked retryable, so the next initiation loses the intent (`DeclinedByCallbackIsNotRetried`).
- A completed payout is checked against cash and no longer against the member's shares, and open requests reserve nothing.
  `CompletionOverdrawsSharesIff` says exactly when a member is paid more than the shares are worth; in
  `MemberIsPaidTwice` a member who saved 600.00 is paid 1200.00.
- Cash can go negative when money that came in is reversed after it was spent (`ReversalOverdrawsIff`; a run in
  `ReversedDepositOverdrawsCash`).

## Model

| member | source | states |
|---|---|---|
| Money.HalfUpIsUnique | app/services/loan.py:423-424 | rounding half up leaves no freedom: only one whole number obeys it |
| LoanTerms.InterestIsNearestCent | app/services/loan.py:423-424 | the interest of a loan is the one whole number of cents nearest to principal times rate, half a cent up |
| LoanTerms.FivePerCent | app/services/loan.py:423-424 | at five per cent that is the principal in twentieths, rounded half up |
| LoanTerms.NewLoanOwes | app/services/loan.py:426-439 | a newly disbursed loan owes its principal and that interest, and nothing else |
| LoanTerms.RepaidByExactly | app/services/loan.py:267-336 | a loan on which nothing was paid is repaid in full by exactly principal plus interest; up to that amount is accepted, and no less makes it REPAID |
| LoanTerms.StatusMeans | app/services/loan.py:450-456 | of a loan whose status is true, REPAID means that nothing is owed and DISBURSED that nothing was paid |
| Money.ShareValueExactAtDefaultPrice | app/services/finance.py:73-87 | at unit price 100, the value of the units bought by any amounts is exactly the sum of the amounts |
| Money.ShareValueError | app/services/contribution.py:241-243 | at any price, the value of the units bought by n amounts is off by at most n half steps plus half a cent |
| Money.SlackIsLinear | app/services/contribution.py:241-243 | n half steps are n * price * 0.00005 |
| Calendar.AddMonthsLands | app/services/loan.py:63-69 | the maturity is a valid date exactly n months later, on the same day unless that month lacks it, and then on its last day |
| Calendar.MonthsMakeTheYear | app/services/loan.py:63-69 | the months have the lengths of the Gregorian calendar: long and short alternate with a new start in August, and February makes up the year |
| Calendar.AddMonthsIsMonotone | app/services/loan.py:63-69 | a later disbursement never matures earlier |
| Calendar.LongerTermMaturesLater | app/services/loan.py:63-69 | a longer term matures strictly later |
| Calendar.AddMonthsComposes | app/services/loan.py:63-69 | two steps reach the month of one; they reach the same day if and only if the middle month does not clamp further |
| Calendar.MonthOffsetIsAnAction | app/services/analytics.py:139-142 | on first-of-month values the offset never raises, is additive and is undone by the opposite offset |
| Calendar.MonthOffsetRaises | app/services/analytics.py:139-142 | off the first of the month it raises if and only if the target month is too short |
| Calendar.TwelveBucketsPartitionTheWindow | app/services/analytics.py:38-70 | a date lies in the window if and only if it lies in one of the twelve buckets, and buckets never overlap |
| Ledger.WholeCentLinesAreKept | app/services/ledger.py:325-346 | quantisation leaves whole-cent lines as they are |
| Ledger.ValidationIsExact | app/services/ledger.py:298-323 | validation accepts exactly the balanced lists of one-sided lines on own accounts with both sides present |
| Ledger.NormalizedIsNearest | app/services/ledger.py:325-346 | normalisation takes every amount to its nearest cent, ties away from zero, and fails exactly when an amount is no finite decimal |
| Ledger.RejectionsAreTrue | app/services/ledger.py:298-323 | validation names a fault that the lines have |
| Ledger.PostStoresIff | app/services/ledger.py:88-153 | a request is stored if and only if its source is new, its amounts are finite, its rounded lines are balanced on own accounts and its reversal reference is sound; else the store stays as it is |
| Ledger.PostKeepsWellFormed | app/services/ledger.py:88-153 | every posting keeps every stored transaction balanced, sources unique, reversals of depth one and at most one per target, and only appends |
| Ledger.LedgerIsAlwaysWellFormed | app/services/ledger.py:88-153 | the store after any sequence of posting requests is well formed |
| Ledger.RetryIsIdempotent | app/services/ledger.py:126-130 | reposting an accepted request returns the same transaction and stores nothing |
| Ledger.FirstReversalCancels | app/services/ledger.py:155-187 | a first reversal succeeds and the pair nets to zero on every account |
| Ledger.ReverseStoresIff | app/services/ledger.py:155-187 | a reversal is stored if and only if its target is this Chama's, no reversal and not yet reversed; it is told of a missing target exactly when this Chama has none |
| Ledger.SecondReversalStoresNothing | app/services/ledger.py:155-187 | a reversed transaction is never reversed again; a retry gets the stored reversal |
| Ledger.AllBalancesSumToZero | app/repositories/ledger.py:32-53 | the balances of all accounts of one Chama sum to zero in every well-formed store |
| LedgerPosting.SortedEqualIffSameMultiset | app/services/ledger.py:277-283 | sorted line lists are equal if and only if the lines are equal as multisets |
| LedgerPosting.LedgerService.NormalizeLines | app/services/ledger.py:325-333 | the loop returns every line quantised, or the first error |
| LedgerPosting.LedgerService.ValidateLines | app/services/ledger.py:298-323 | the loop with its two flags and running total reports exactly the first fault of the specification |
| LedgerPosting.LedgerService.ResolveIdempotentRetry | app/services/ledger.py:263-285 | comparing sorted lists decides whether Chama, description, reference and multiset of lines match |
| LedgerPosting.LedgerService.PostTransaction | app/services/ledger.py:88-153 | the answer and the new store are those of Ledger.Post |
| LedgerPosting.LedgerService.ReverseTransaction | app/services/ledger.py:155-187 | the answer and the new store are those of Ledger.Reverse |
| ConcurrentPosting.StepIsConsistent | app/services/ledger.py:126-153 | one statement of one of any number of posting sessions keeps the store well formed, and every finished session was told what its own two reads and the stored transaction say |
| ConcurrentPosting.RunIsConsistent | app/services/ledger.py:126-153 | so does every interleaving |
| ConcurrentPosting.PostingLinearises | app/services/ledger.py:126-153 | one transaction is stored per source; every finished poster of a posting that reverses nothing was told its id if and only if its payload matches, else a conflict |
| ConcurrentPosting.ReversingPosterIsToldTheTruth | app/services/ledger.py:126-153 | a target has at most one reversal; a finished reversing poster was given only the stored id of its source, for a matching payload, and AlreadyReversed only when a reversal of the target is stored |
| ConcurrentPosting.MatchingReversalGetsTheIdIff | app/services/ledger.py:287-296 | a reversing poster whose payload matches the stored reversal gets its id if and only if no reversal of the target was inserted between its look-up and its reference check, and the check saw the target |
| RacingReversals.IdenticalReversalIsRefused | app/services/ledger.py:126-153 | a concrete schedule of two identical reversals: one is stored, the other is told AlreadyReversed although a retry would get the id |
| Subledger.ViewsDifferByInFlight | app/services/loan.py:357-375 | the status side of an account exceeds its ledger side by exactly the postings whose reversal is stored while the row still counts |
| Subledger.PostingCommit | app/services/ledger.py:132-144 | a commit that posts one row moves ledger view and balance alike and leaves every other row in agreement |
| Subledger.ReversalCommit | app/services/ledger.py:155-187 | a commit that reverses one row does the same |
| Reconciliation.ApplyForLoanKeeps | app/services/loan.py:83-116 | an application keeps the books sound and reconciled |
| Reconciliation.MoveLoanKeeps | app/services/loan.py:118-186 | submit, approve, reject and cancel keep them |
| Reconciliation.DisburseKeeps | app/services/loan.py:188-246 | disbursement keeps them: a loan is out if and only if its posting stands |
| Reconciliation.RecordRepaymentKeeps | app/services/loan.py:267-336 | a repayment keeps them: portions are non-negative, sum to the amount and stay within what is owed |
| Reconciliation.ReverseRepaymentKeeps | app/services/loan.py:338-376 | a reversal keeps them, whether it crashes between its commits or not and whatever its status query sees |
| Reconciliation.RequestPayoutKeeps | app/services/payout.py:54-88 | a payout request keeps them: it adds a row that does not count; what it accepts is Admission.PayoutAcceptedIff |
| Reconciliation.MovePayoutKeeps | app/services/payout.py:90-143 | approve, reject, process and fail keep them |
| Reconciliation.CompletePayoutKeeps | app/services/payout.py:145-199 | completion keeps them |
| Reconciliation.ReversePayoutKeeps | app/services/payout.py:226-253 | a payout reversal keeps them, crash or not |
| Reconciliation.RecordContributionKeeps | app/services/contribution.py:50-85 | a new contribution keeps them: one open contribution per member and period |
| Reconciliation.SettleKeeps | app/services/contribution.py:94-142 | settlement keeps them: status, share and posting move together |
| Reconciliation.ReverseContributionKeeps | app/services/contribution.py:154-193 | a contribution reversal keeps them: exactly its own share is cancelled |
| Reconciliation.OpenFeeKeeps | app/services/membership.py:134 | a new fee keeps them |
| Reconciliation.WaiveFeeKeeps | app/services/registration_fee.py:58-80 | waiving keeps them |
| Reconciliation.PayFeeKeeps | app/services/registration_fee.py:82-140 | a fee payment keeps them: never two confirmed payments of one fee |
| Reconciliation.ReverseFeeKeeps | app/services/registration_fee.py:142-179 | a fee reversal keeps them, crash or not |
| Runs.EveryOperationKeeps | app/services/loan.py:188-376 | every one of the sixteen operations keeps the books sound and reconciled on every account |
| Runs.RunKeeps | app/services/payout.py:145-253 | so does every run of operations, with crashes anywhere |
| Runs.EveryRunReconciles | app/services/finance.py:33-49 | over every run from the empty database, crashes included, the five account balances plus the postings in flight equal the figures of the rows |
| Runs.SettledBooksBalance | app/services/finance.py:33-49 | when no row is in flight the balance equals the figures outright |
| Flights.EveryOperationLands | app/services/loan.py:357-375 | for each of the sixteen operations and each row: a reversal of the row puts it in flight if it crashes and lands it if it completes; nothing else changes whether it is in flight |
| Flights.InFlightIffLastReversalCrashed | app/services/loan.py:357-375 | after any run of settled books a row is in flight if and only if the last request that got to reverse it crashed |
| Flights.UncrashedOperationStaysSettled | app/services/payout.py:235-252 | a request that does not crash leaves settled books settled |
| Flights.CrashFreeRunsSettle | app/services/payout.py:226-253 | a run in which no reversal crashes leaves no row in flight |
| Flights.CrashFreeRunsReconcile | app/services/finance.py:33-49 | over every such run from the empty database the five account balances equal the figures of the rows; cash is money in less money out |
| Flights.AgainLands | app/services/loan.py:357-375 | the retry of a reversal in flight is accepted and lands its row |
| Flights.CompletingCrashedReversalsSettles | app/services/loan.py:357-375 | whatever crashed before, retrying every reversal that is still in flight settles the books |
| Runs.OutstandingPrincipalIsUnpaidPrincipal | app/services/loan.py:426-439 | outstanding principal summed over loans is disbursed principal minus confirmed principal portions |
| Solvency.DisbursedIff | app/services/loan.py:188-246 | a loan is newly disbursed if and only if it is APPROVED and cash covers its principal; cash falls by exactly the principal, and the loan is dated today |
| Solvency.CompletedIff | app/services/payout.py:145-199 | a payout is newly completed if and only if it is PROCESSING and cash covers it; cash falls by exactly its amount |
| Solvency.OperationKeepsSolvent | app/services/loan.py:213-215 | every operation keeps cash plus everything that was taken back of the money that came in non-negative |
| Solvency.EveryRunIsSolvent | app/services/finance.py:33-49 | so does every run from the empty database; cash is negative only if a transaction that brought money in was reversed |
| Admission.MissingRowsAreRefused | app/services/loan.py:259-263 | a request is refused as not found if and only if it names a row that does not exist |
| Admission.RefusalsAreTrue | app/services/payout.py:59-66 | a refused request changes nothing and is told a reason that holds of it |
| Admission.PayoutAcceptedIff | app/services/payout.py:54-88 | a payout request is accepted if and only if it is positive, cash covers it, and with everything already paid out it stays within the value of the member's shares |
| Admission.PayoutWithinSavingsIff | app/services/payout.py:265-268 | at unit price 100: if and only if it is positive, within cash, and within the sum of confirmed contributions less the sum of COMPLETED payouts |
| Admission.CompletionOverdrawsSharesIff | app/services/payout.py:145-199 | a completion leaves the member paid more than the shares are worth if and only if it exceeds what is available at that moment |
| Overdrawn.MemberIsPaidTwice | app/services/payout.py:54-88 | a concrete run: a member who saved 600.00 is paid 1200.00 |
| Admission.LoanAcceptedIff | app/services/loan.py:83-116 | an application is accepted if and only if the member has the tenure, cash covers the positive principal, it is at most three times the share value, and the term is three to twelve months; the new loan is a DRAFT at five per cent |
| Admission.LoanWithinThriceSavingsIff | app/services/loan.py:83-116 | at unit price 100 the limit is three times the sum of the member's confirmed contributions |
| Admission.RepaymentAcceptedIff | app/services/loan.py:267-336 | a repayment is accepted if and only if the loan is DISBURSED or PARTIALLY_REPAID and owes at least this positive amount; cash rises and the debt falls by it |
| Admission.RepaymentReversedIff | app/services/loan.py:338-376 | a reversal is accepted if and only if it names a confirmed repayment of that loan; its money leaves cash unless a crashed reversal already took it |
| Admission.PayoutReversedIff | app/services/payout.py:226-253 | accepted if and only if the payout is COMPLETED; its money comes back |
| Admission.ContributionAcceptedIff | app/services/contribution.py:50-85 | accepted if and only if it is not negative and the member has only reversed ones for the period |
| Admission.ConfirmedIff | app/services/contribution.py:94-142 | newly confirmed if and only if it is PENDING and not zero; cash rises by its amount and the member gets one active share worth it to within half a step |
| Admission.ContributionReversedIff | app/services/contribution.py:154-193 | accepted if and only if it is confirmed; cash falls by its amount and exactly its shares are cancelled |
| Admission.FeeOpenedIff | app/services/membership.py:134 | a member has one fee |
| Admission.FeeWaivedIff | app/services/registration_fee.py:58-80 | only an OWED fee is waived |
| Admission.FeePaidIff | app/services/registration_fee.py:82-140 | only an OWED, positive fee is newly paid; cash rises by it and one confirmed payment is added |
| Admission.FeeReversedIff | app/services/registration_fee.py:142-179 | accepted if and only if the fee is PAID; it is OWED again and its money leaves cash unless a crashed reversal already took it |
| Lives.EveryLoanBeginsALife | app/services/loan.py:118-246 | over every run the stages of a loan begin one of three lives: no loan is out that was not submitted and approved, and final stages stay |
| Lives.LoanMovesIff | app/services/loan.py:248-253 | a transition is accepted if and only if its status follows in some life |
| Lives.EveryPayoutBeginsALife | app/services/payout.py:90-253 | over every run the statuses of a payout begin one of three lives: none is COMPLETED that was not approved and processed |
| Lives.PayoutMovesIff | app/services/payout.py:90-143 | a transition is accepted if and only if its status follows in some life |
| Lives.EveryContributionBeginsItsLife | app/services/contribution.py:94-193 | over every run a contribution goes from PENDING to CONFIRMED to REVERSED, or part of the way |
| Guarantees.SettledOnce | app/services/contribution.py:94-127 | a contribution that was ever settled has exactly one posting and exactly one share |
| Guarantees.UndoTwice | app/services/ledger.py:126-130 | undoing a row a second time changes nothing; its posting and its reversal are each stored once |
| Guarantees.RepaymentReversalConverges | app/services/loan.py:357-375 | after any number of reversals that crashed between their commits, a completed one ends where an undisturbed one does, with one reversal |
| Guarantees.PayoutReversalConverges | app/services/payout.py:235-252 | the same for payouts |
| Guarantees.FeeReversalConverges | app/services/registration_fee.py:156-178 | the same for registration fees |
| Retries.RunKeepsReversed | app/services/ledger.py:155-187 | no run removes a posting, its reversal or a row |
| Retries.RetryAfterAnything | app/services/loan.py:357-375 | an accepted reversal, perhaps crashed, then any operations, then one more request to reverse the row: the posting is stored once and reversed once, and the row no longer counts |
| Guarantees.FlushedRunsKeepStatus | app/services/loan.py:441-456 | when queries see flushed statuses, the status of every loan is a function of its confirmed repayments in every run |
| Guarantees.AllReversedRestoresTheLoan | app/services/loan.py:450-456 | with all repayments reversed, in any order, a loan is DISBURSED and owes everything |
| Guarantees.StaleStatusIsRightIff | app/services/loan.py:365-366 | without a flush, the written status is right if and only if the loan still owed something and another repayment stays confirmed |
| Guarantees.StaleReversalStrandsARepaidLoan | app/services/loan.py:365-366 | without a flush, a fully repaid loan stays REPAID after a reversal and accepts no repayment of what it then owes |
| Guarantees.OneMoreRepayment | app/services/loan.py:277-295 | a repayment is accepted if and only if it is owed; it pays interest first, so interest is cleared or no principal was taken |
| Guarantees.RepaymentsArePathIndependent | app/services/loan.py:277-295 | a split of T is accepted in full if and only if T is owed, and pays min(T, interest) and the rest of the principal however it is split |
| Guarantees.MemberShareValueFollowsContributions | app/services/finance.py:73-87 | share value follows the confirmed contributions: exactly at unit price 100, within the rounding slack at any price |
| Guarantees.AvailableSharesAreShareCapital | app/services/payout.py:265-268 | at unit price 100, available share value summed over members is minus the Share Capital balance when no row is in flight, and differs by the postings in flight otherwise |
| Guarantees.CrashFreeSharesAreShareCapital | app/services/payout.py:265-268 | at unit price 100 it is minus the Share Capital balance after every run from the empty database in which no reversal crashes |
| StaleView.TheMemberSaves | app/services/contribution.py:94-127 | a concrete run from the empty database: a member saves 600.00 |
| StaleView.TheLoanIsApproved | app/services/loan.py:83-152 | the member applies for a loan of 600.00, which is submitted and approved |
| StaleView.TheLoanIsDisbursed | app/services/loan.py:188-246 | the loan is disbursed |
| StaleView.TheLoanIsRepaid | app/services/loan.py:267-336 | its repayment in full |
| StaleView.StaleViewBreaksTheStatus | app/services/loan.py:365-366 | its reversal: DISBURSED with a flush, REPAID without, owing everything either way |
| StaleView.TheLoanIsReached | app/services/loan.py:188-246 | the run of operations from the empty database that ends with the loan disbursed |
| StaleView.ReversedDepositOverdrawsCash | app/services/contribution.py:154-193 | then reversing the contribution is accepted and leaves cash at -600.00 |
| Database.CanonicalPostIsStored | app/services/loan.py:220-236 | a balanced entry under a new source is always stored, so a service never sees its own posting fail |
| Database.CanonicalReversalIsStored | app/services/loan.py:357-364 | reversing a counted row always succeeds: stored the first time, recognised afterwards |
| Database.Session.PostEntry | app/services/loan.py:220-236 | posts a row and returns its new transaction |
| Database.Session.ReverseEntry | app/services/loan.py:357-364 | reverses a row unless it has no posting or is already reversed |
| Lending.LoanService.Disburse | app/services/loan.py:188-246 | answer and new state are those of Books.Disburse, whose exact acceptance is Solvency.DisbursedIff |
| Lending.LoanService.OutstandingFor | app/services/loan.py:426-439 | the loop computes principal and interest still owed |
| Lending.LoanService.RecordRepayment | app/services/loan.py:267-336 | answer and new state are those of Books.RecordRepayment |
| Lending.LoanService.ReverseRepayment | app/services/loan.py:338-376 | answer and new state are those of Books.ReverseRepayment, crash point and visibility included |
| PayingOut.PayoutService.Complete | app/services/payout.py:145-199 | answer and new state are those of Books.CompletePayout, whose exact acceptance is Solvency.CompletedIff |
| PayingOut.PayoutService.Reverse | app/services/payout.py:226-253 | answer and new state are those of Books.ReversePayout |
| Contributing.ContributionService.Settle | app/services/contribution.py:94-142 | answer and new state are those of Books.Settle |
| Contributing.ContributionService.Reverse | app/services/contribution.py:154-193 | the loop over shares and the reversal leave the state of Books.ReverseContribution |
| Contributing.ConfirmationPosts | app/services/contribution.py:129-142 | the ledger stores a positive confirmation and refuses one of zero |
| Registering.RegistrationFeeService.ReversePayment | app/services/registration_fee.py:142-179 | answer and new state are those of Books.ReverseFee |
| Services.SoundBooksAreReady | app/services/loan.py:205-209 | sound books meet what the services rely on, so their missing-posting errors are unreachable |
| Services.Desk.ServeAll | app/services/loan.py:72-79 | any sequence of requests to the services ends in the state of the run of operations, and in a sound session |
| CashLock.OpeningIsSafe | app/services/finance.py:52-70 | before anything is posted, any rows and any workers are safe |
| CashLock.StepKeepsSafe | app/services/finance.py:52-70 | a step of any worker, a crash, an unlocked deposit, a reversal or a status change keeps the lock exclusive and gross cash non-negative |
| CashLock.CashIsNeverOverspent | app/services/finance.py:52-70 | under any interleaving cash plus reversed money-in is never negative; cash is negative only after money-in was reversed |
| CashLock.RacingWorkersShareOnePosting | app/services/payout.py:160-189 | workers racing on one loan or payout are all answered with the one stored transaction |
| CashLock.FinishKeepsSafe | app/services/loan.py:213-246 | a worker admitted by the cash check always finishes with a transaction |
| CashLock.SomeWorkerAdvances | app/services/finance.py:52-70 | the lock never deadlocks: while a worker is unfinished, it or the holder can advance |
| CashLock.ReversalOverdrawsIff | app/services/contribution.py:154-193 | an unlocked reversal leaves cash negative if and only if less is left than came in |
| LoneWorkers.LoneDisbursement | app/services/loan.py:188-246 | an undisturbed worker of the lock ends with the store, the status and the answer of the books' disbursement |
| LoneWorkers.LoneCompletion | app/services/payout.py:145-199 | and so it does for the completion of a payout |
| PaymentProtocol.CreateKeeps | app/services/payment_intent.py:125-195 | creating an intent keeps the protocol: keys stay unique and links valid |
| PaymentProtocol.CreateAttemptKeeps | app/services/payment_intent.py:458-567 | a new attempt keeps it, whatever the provider replies |
| PaymentProtocol.ResumeKeeps | app/services/payment_intent.py:383-421 | resolving an unknown outcome by a query keeps it |
| PaymentProtocol.InitiateKeeps | app/services/payment_intent.py:328-421 | initiation keeps it, with a crash after the first commit or not |
| PaymentProtocol.RepairKeeps | app/services/payment_intent.py:274-288 | the repair on listing keeps it |
| PaymentProtocol.CollectKeeps | app/services/payment_intent.py:647-661 | a success keeps it: attempt, intent and settlement move together |
| PaymentProtocol.ApplyCallbackKeeps | app/services/payment_webhook.py:276-390 | applying a callback keeps it |
| PaymentProtocol.DeliverKeeps | app/services/payment_webhook.py:89-128 | a delivery or redelivery keeps it, wherever it crashes |
| PaymentProtocol.ConfirmPaybillKeeps | app/services/c2b_payment.py:144-189 | a Paybill confirmation keeps it |
| PaymentRuns.EveryRequestOperates | app/services/settlement.py:18-38 | a request touches the books by at most two operations on them, and a payment only by recording and settling contributions |
| PaymentRuns.EveryRunKeeps | app/services/payment_intent.py:328-421 | every run keeps protocol and books sound and only moves forward |
| PaymentRuns.EveryRunKeepsBooks | app/services/settlement.py:18-38 | every run keeps the books reconciled, and settled unless a reversal crashes between its commits |
| PaymentGuarantees.EveryRunObeysTheProtocol | app/services/payment_intent.py:328-421 | in every state attempts are numbered 1 to n within the limit, all but the last failed, and the intent is collected if and only if the last succeeded |
| PaymentGuarantees.AtMostOneAttemptSucceeds | app/services/payment_intent.py:604-672 | at most one attempt of an intent ever succeeds, and a lost intent has only failed ones |
| PaymentGuarantees.NoNewAttemptWhileUnresolved | app/services/payment_intent.py:383-395 | final states never change, and no attempt is added while one is unresolved |
| AttemptLaws.CreatedIff | app/services/payment_intent.py:125-195 | under a new key an intent is created if and only if its amount is positive and its link, if any, is to a PENDING contribution of the same member and amount |
| AttemptLaws.FirstAttempt | app/services/payment_intent.py:371-377 | a fresh intent gets attempt 1, recorded as the provider answers: ids, timeout, or rejection with its retryable flag |
| AttemptLaws.RetriedIff | app/services/payment_intent.py:398-421 | after a failed last attempt, attempt n + 1 is made if and only if n is below the limit and the failure may be retried; otherwise the intent is lost and none is added |
| AttemptLaws.RetriedAfterQueryIff | app/services/payment_intent.py:383-421 | the same after a query that found a failure, which may be retried exactly when it is not permanent |
| AttemptLaws.FoundPaidIsCollected | app/services/payment_intent.py:647-661 | a query that finds the payment collects and settles at once, unless an id is taken or the contribution reversed |
| AttemptLaws.UnknownIsLeftAlone | app/services/payment_intent.py:604-646 | an attempt that cannot be queried, or whose query finds nothing final, is left alone and no other is made |
| AttemptLaws.OthersChangeNothing | app/services/payment_intent.py:348-363 | a finished intent, or a request that is not let through, changes nothing |
| AttemptLaws.RepairedIff | app/services/payment_intent.py:274-288 | listing ends an intent if and only if it is PROCESSING and its last attempt failed for good |
| AttemptLaws.DeclinedByCallbackIsNotRetried | app/services/payment_webhook.py:372-390 | after a failure that a callback reports no attempt follows, however many remain: the next initiation loses the intent |
| PaymentGuarantees.SucceededAttemptIsSettledOnce | app/services/settlement.py:18-38 | the contribution of a succeeded attempt has exactly one posting, of the intent's amount, and one share, however many intents that link it were collected |
| PaymentGuarantees.CollectionPostsIff | app/services/settlement.py:18-38 | collecting a linked intent is possible if and only if its ids are free and its contribution is not reversed; it posts if and only if the contribution is still PENDING, and leaves the books alone if and only if it is CONFIRMED |
| PaymentWitnesses.PaidTwicePostedOnce | app/services/payment_intent.py:198-208 | a concrete run: two intents link one contribution, both are collected, 1200.00 is paid and 600.00 posted |
| PaymentGuarantees.PaymentRunsReconcile | app/services/settlement.py:18-38 | in every run of the payment protocol each balance equals the figures of the rows when no reversal crashes, and up to the postings in flight otherwise |
| PaymentGuarantees.PaymentRunsAreSolvent | app/services/settlement.py:18-38 | in every run of the payment protocol cash covers everything but what was taken back of the money that came in |
| PaymentGuarantees.RetryOfCreateFindsTheIntentIff | app/services/payment_intent.py:146-165 | repeating a create request finds the intent if and only if it is the same request and its contribution is still PENDING |
| PaymentWitnesses.IdenticalCreateIsRefusedOnceSettled | app/services/payment_intent.py:146-165 | a concrete run: the repeated request finds the intent, and is refused once the contribution is confirmed |
| PaymentGuarantees.FinishedEventIsNeverApplied | app/services/payment_webhook.py:192-213 | a delivery of a finished event changes nothing but its classification |
| PaymentGuarantees.FinishedEventStaysFinished | app/services/payment_webhook.py:192-213 | and that holds in every later state |
| PaymentGuarantees.OneCrashConverges | app/services/payment_webhook.py:89-128 | a delivery that crashed after the store or after the posting, followed by a redelivery, does what an undisturbed one does |
| PaymentGuarantees.CrashedDeliveriesConverge | app/services/payment_webhook.py:89-128 | the same for any number of crashes |
| PaymentGuarantees.RedeliveryFinishesTheEvent | app/services/payment_webhook.py:89-128 | a delivery, perhaps crashed, then any requests, then a redelivery: the event leaves RECEIVED, and PROCESSED means the attempt has the reported status; otherwise the success could not be recorded and nothing changed |
| WebhookLaws.FoundAttemptIs | app/services/payment_webhook.py:177-189 | a callback is about the attempt with its request id; failing that, about the one with its transaction id |
| WebhookLaws.OnlyAgreeingCallbacksApply | app/services/payment_webhook.py:276-390 | on every world, for every callback and crash point: intents or books change only for a live event about an unresolved attempt of this connection, with a final outcome and with no amount or currency other than the intent's |
| WebhookLaws.PaidIsApplied | app/services/payment_webhook.py:331-371 | such a reported payment makes the attempt succeed, collects the intent and settles its contribution at once, unless the transaction id is taken or the contribution reversed; then nothing changes and the event stays open |
| WebhookLaws.SettledIff | app/services/settlement.py:18-38 | settlement goes through exactly for an intent without a link, or whose contribution is its member's, not reversed and not a PENDING zero |
| WebhookLaws.DeclinedIsApplied | app/services/payment_webhook.py:372-390 | such a reported failure fails the attempt, and loses the intent if it was the last allowed one; no money moves |
| WebhookLaws.OtherMoneyDisagrees | app/services/payment_webhook.py:285-296 | a stated amount or currency that is not the intent's ends the event as DISAGREEMENT, with intents and books unchanged |
| WebhookLaws.StrangersAreUnprocessable | app/services/payment_webhook.py:110-119 | a callback about no attempt of this connection ends UNPROCESSABLE |
| WebhookLaws.UndecidedIsUnprocessable | app/services/payment_webhook.py:298-308 | one without a final outcome ends UNPROCESSABLE |
| WebhookLaws.FinalAttemptOnlyCompares | app/services/payment_webhook.py:310-330 | about a final attempt, the same outcome is PROCESSED and the opposite one DISAGREEMENT; nothing moves |
| WebhookLaws.OthersAreFiled | app/services/payment_webhook.py:192-213 | a delivery with another payload, of a finished event, or unreadable only files its event |
| PaymentGuarantees.StuckArises | app/services/payment_intent.py:371-377 | a crash after the first commit, and a provider timeout, leave an intent that no request can move |
| PaymentGuarantees.StuckForever | app/services/payment_intent.py:608-609 | nothing ever moves such an intent again |
| PaymentGuarantees.ProcessingIntentMovesIff | app/services/payment_intent.py:371-421 | a PROCESSING intent can be moved by some request if and only if it is not of that kind |
| PaymentGuarantees.OneOpenContributionPerPeriod | app/models/contribution.py:44-54 | in every state a member has at most one contribution per period that is not reversed |
| PaymentGuarantees.ConfirmationPostsItsAmount | app/services/c2b_payment.py:191-224 | a confirmation posts nothing, or once, its own amount for its own member and period; only PROCESSED posts |
| PaymentGuarantees.ProcessedWithoutPostingIff | app/services/c2b_payment.py:214-217 | PROCESSED without a posting happens if and only if the period was already confirmed with that amount |
| PaymentGuarantees.ConfirmationTouchesOnlyTheBooks | app/services/c2b_payment.py:144-189 | any outcome other than PROCESSED leaves ledger and contributions as they were |
| PaymentGuarantees.ConfirmationIsFiled | app/services/c2b_payment.py:144-224 | an undisturbed confirmation is compared if stored before, unprocessable if it does not fit, and else posts its amount for its member and period unless there is nothing to settle |
| PaymentGuarantees.PaybillSettlesAtMostOnce | app/services/c2b_payment.py:289-350 | after one confirmation of a TransID on a connection, no later one touches the books, whatever happens in between |
| PaymentGuarantees.CrashedConfirmationIsHarmlessIff | app/services/c2b_payment.py:304-316 | a crash after the store and a redelivery leave the books of an undisturbed confirmation if and only if there is no TransID, the event was stored before, the connection or short code does not fit, or there was nothing to settle |
| PaymentGuarantees.CrashedConfirmationIsLost | app/services/c2b_payment.py:304-316 | whatever happens in between, the redelivery of a confirmation that crashed after its store leaves the books alone |
| PaymentWitnesses.CrashedPaybillIsNotPosted | app/services/c2b_payment.py:304-316 | a concrete run: undisturbed, 600.00 is posted; crashed and redelivered, the ledger stays empty |
| Collecting.PaymentService.SettleLinkedContribution | app/services/settlement.py:18-38 | new books are those of Payments.SettleLinked |
| Collecting.PaymentService.CreateAttempt | app/services/payment_intent.py:458-567 | answer and new state are those of Payments.CreateAttempt |
| Collecting.PaymentService.QueryAndResolve | app/services/payment_intent.py:604-672 | answer and new state are those of Payments.Resume |
| Collecting.PaymentService.InitiatePayment | app/services/payment_intent.py:328-421 | answer and new state are those of Payments.Initiate, whose laws are those of AttemptLaws |
| Collecting.PaymentService.ListIntents | app/services/payment_intent.py:274-288 | the loop ends exactly the intents whose last attempt was rejected for good |
| Collecting.PaymentService.ApplyCallback | app/services/payment_webhook.py:276-390 | answer and new state are those of Payments.ApplyCallback, whose laws are those of WebhookLaws |
| Collecting.PaymentService.Handle | app/services/payment_webhook.py:89-128 | answer and new state are those of Payments.Deliver |
| Collecting.PaymentService.SettlePaybill | app/services/c2b_payment.py:191-224 | answer and new books are those of Payments.SettleConfirmation |
| Portals.Portal.ServeAll | app/services/payment_intent.py:106-114 | any sequence of requests to all services ends in the state of the run of the protocol, and in a sound one |
| ClientReference.CandidatesDiffer | app/services/payment_intent.py:572-582 | different counters give different candidates |
| ClientReference.TakenCandidatesFit | app/services/payment_intent.py:575-582 | n taken candidates need n references |
| ClientReference.UniqueClientReference | app/services/payment_intent.py:569-583 | the loop ends within as many steps as there are references, on the first unused candidate |
| RateLimiting.RateLimiter.Make | app/core/ratelimit.py:15-21 | limits that are not positive are refused |
| RateLimiting.RateLimiter.Allow | app/core/ratelimit.py:23-35 | answer and new counts are those of Allows and AfterCall |
| RateLimiting.RateLimiter.Prune | app/core/ratelimit.py:48-55 | the loop removes exactly the expired windows |
| RateLimiting.RateLimiter.RetryAfterSeconds | app/core/ratelimit.py:42-46 | the seconds are those of RetryAfterOf |
| RateLimiting.PruningIsInvisible | app/core/ratelimit.py:48-55 | for any calls at non-decreasing times, every answer is that of the limiter that never prunes |
| RateLimiting.OnlyLiveWindowsAreKept | app/core/ratelimit.py:34 | after an allowed call every kept window is unexpired |
| RateLimiting.CeilingHolds | app/core/ratelimit.py:23-35 | what the current window of a key says about any interval of one width |
| RateLimiting.AtMostTwiceTheBudget | app/core/ratelimit.py:23-35 | at most 2 * max calls of a key are allowed in any half-open interval of one width |
| RateLimiting.WindowsAreBoundedAndApart | app/core/ratelimit.py:27-33 | at most max calls are allowed from a window's start for one width, and the next window starts at least one width later |
| RateLimiting.RefusedIff | app/core/ratelimit.py:23-35 | a call is refused if and only if its key's window is still running and has allowed its whole budget |
| RateLimiting.UnderBudgetIsAllowed | app/core/ratelimit.py:23-35 | a key that was allowed fewer calls than its budget during the last width is allowed |
| RateLimiting.BlockedKeyIsAllowedAfterRetry | app/core/ratelimit.py:42-46 | a blocked key that is not called is allowed exactly from its window's end on, which the retry time passes by at most one second |
| Pagination.OnePage | app/api/v1/ledger.py:78-93 | a page continues strictly below the cursor and skips nothing |
| Pagination.WalkIsOrderly | app/api/v1/ledger.py:69-93 | following the cursors while rows are inserted hands out rows strictly newest first |
| Pagination.PaginationIsComplete | app/repositories/ledger.py:95-137 | a finished walk handed out every row of the start exactly once and no row twice |
| Pagination.PaginationTerminates | app/repositories/ledger.py:95-137 | a walk ends once its full pages hold more rows than the table |
| Analytics.AddCategory | app/services/analytics.py:47-55 | the loop stores each month's sum under its category and touches no other |
| Analytics.Collections | app/services/analytics.py:38-70 | the loops fill twelve buckets with exactly what the ledger transactions stored in each month brought into Cash |
| Analytics.GroupedSums | app/services/analytics.py:132-136 | grouping by month yields each month's sum |
| Analytics.MonthIsAWindow | app/services/analytics.py:132-136 | grouping by year and month inside the window is the same as the half-open window of that month |
| Analytics.BucketsConserveCollections | app/services/analytics.py:57-70 | the first n buckets add up to everything that the transactions stored in their months brought in |
| Analytics.TwelveMonthsAreConfirmedContributions | app/services/analytics.py:38-70 | for a group younger than the window the twelve months of contributions add up to the contributions confirmed now, for the group or for one member |
| CashFlows.JoinedAddUp | app/services/analytics.py:87-136 | the rows joined from transactions, entries, accounts and reversed originals add up to the cash effects of the wanted transactions of the window |
| CashFlows.OnlyLiveCollect | app/services/analytics.py:87-136 | a reversal takes back exactly what its original brought in, so the sum is that of the transactions nobody has reversed |
| CashFlows.RowsAreCollected | app/services/analytics.py:87-136 | over the life of the ledger a category collects what the standing postings of its rows hold in Cash |
| CashFlows.CollectedContributionsAreConfirmed | app/services/analytics.py:87-136 | for contributions that is the sum of the confirmed ones, of the group or of one member |
| CashFlows.CollectedFeesAreConfirmed | app/services/analytics.py:87-136 | for registration fees that is the sum of the confirmed payments, once no reversal is in flight |

## Left out

- Authentication, roles, self-action guards, audit events and notifications: the actor is assumed to be authorised, and no audit row is kept.
- Several Chamas in one sub-ledger database: the ledger handles many, the books are those of one Chama.
- Status races: under concurrency only cash safety and single posting are proved; loan and payout rows are read before the lock and not re-read, so their statuses may be overwritten.
- Concurrent deliveries of one webhook event or one TransID: each request is one step with its crash points, and losing the race for a period is an argument of the Paybill confirmation.
- Provider adapters, JSON parsing, credentials, callback tokens and phone numbers: replaced by the provider's normalised answers; payload hashes are taken to be injective and binding a callback to a connection to have succeeded.
- Recording the last transition's source and actor, failure messages, timestamps and notes of rows.
- Paybill validation (app/services/c2b_payment.py:83-140): it stores a classified event and moves nothing.
- The UNKNOWN attempt status is part of the model but, as in the code, nothing ever sets it.
- Years outside 1 to 9999 and Decimal's 28-digit context: dates and amounts are unbounded.
- Times of day: dates are days; adding months never changes the time of day.
- Cursor encoding, and the second-precision timestamps of the SQLite dialect in pagination: rows are compared by exact time and id.
- The storage day of each ledger transaction is an argument of the analytics; the books do not keep times.
- A Session's rollback is not a separate step: a request that raises leaves the tables unassigned.
- Member tenure, membership status and the initiation rate limit enter as a flag of the request.
- Statements, PDF rendering, platform administration, registration and membership numbers.
- CashLock.StepKeepsSafe: posting and committing is one step of the lock's holder, because only the holder posts under a loan's or payout's source; the separate statements of posting are in ConcurrentPosting.
- Collecting.PaymentService.InitiatePayment: the provider call and the row that records it are one step, so a crash between them, which would leave a charge without a row, is not modelled.
