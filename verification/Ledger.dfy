/**
 The double-entry ledger: an append-only store of transactions with unique sources. A transaction's
 id is its position in the store. Nothing stores a balance; balances are folds over posted lines.
 */
module Ledger {
  import opened Wrappers
  import opened Money
  import opened Tally

  const CASH := 1000
  const LOANS_RECEIVABLE := 1100
  const SHARE_CAPITAL := 3000
  const REGISTRATION_FEES := 4000
  const INTEREST_INCOME := 5000

  /** A Chama has one account per code. */
  datatype Account = Account(chama: nat, code: nat)

  datatype SourceType =
    | ContributionConfirmation
    | LoanDisbursement
    | LoanRepayment
    | PayoutCompletion
    | RegistrationFeePayment
    | LedgerReversal

  datatype Source = Source(kind: SourceType, id: nat)

  /** A description: the wording and the number it mentions (a row id or a period). */
  datatype Wording =
    | ForConfirmation | ForConfirmationReversal
    | ForDisbursement
    | ForRepayment | ForRepaymentReversal
    | ForCompletion | ForCompletionReversal
    | ForFeePayment | ForFeePaymentReversal

  datatype Memo = Memo(wording: Wording, subject: int)

  /** An amount as the caller supplies it: a Decimal in cents, a float or bool, text that is no number, or NaN/Infinity. */
  datatype RawAmount = Exact(cents: real) | Inexact | Unparsable | NotFinite

  datatype RawLine = RawLine(account: Account, debit: RawAmount, credit: RawAmount)

  datatype Line = Line(account: Account, debit: int, credit: int)

  datatype Transaction = Transaction(
    chama: nat, source: Source, memo: Option<Memo>, reverses: Option<nat>, lines: seq<Line>)

  datatype Request = Request(
    chama: nat, source: Source, memo: Option<Memo>, raw: seq<RawLine>, reverses: Option<nat>)

  datatype LedgerError =
    | FloatAmount | InvalidAmount | NonFiniteAmount
    | NoEntries | NegativeAmount | NotOneSided | UnknownAccount | MissingSide | Unbalanced
    | ReversalWithoutReference | ReferenceWithoutReversal
    | TargetMissing | TargetIsReversal | AlreadyReversed
    | OtherChama | OtherDescription | OtherReversal | OtherLines
    | ConstraintViolated

  type Posted = Result<nat, LedgerError>

  // ----- normalisation and validation ----------------------------------------------------------

  function Quantized(v: RawAmount): Result<int, LedgerError> {
    match v
    case Inexact => Failure(FloatAmount)
    case Unparsable => Failure(InvalidAmount)
    case NotFinite => Failure(NonFiniteAmount)
    case Exact(cents) => Success(HalfUp(cents))
  }

  function NormalizedLine(r: RawLine): Result<Line, LedgerError> {
    match Quantized(r.debit)
    case Failure(e) => Failure(e)
    case Success(debit) =>
      match Quantized(r.credit)
      case Failure(e) => Failure(e)
      case Success(credit) => Success(Line(r.account, debit, credit))
  }

  /** The lines after quantisation, or the error of the first amount that cannot be quantised. */
  function Normalized(raw: seq<RawLine>): Result<seq<Line>, LedgerError> {
    if raw == [] then Success([])
    else
      match Normalized(raw[..|raw| - 1])
      case Failure(e) => Failure(e)
      case Success(front) =>
        match NormalizedLine(raw[|raw| - 1])
        case Failure(e) => Failure(e)
        case Success(last) => Success(front + [last])
  }

  /** A finite decimal and the whole number of cents nearest to it, ties away from zero. */
  ghost predicate Nearest(v: RawAmount, cents: int) {
    && v.Exact?
    && if v.cents >= 0.0 then cents as real - 0.5 <= v.cents < cents as real + 0.5
       else cents as real - 0.5 < v.cents <= cents as real + 0.5
  }

  ghost predicate Rounds(raw: seq<RawLine>, lines: seq<Line>) {
    && |lines| == |raw|
    && forall i :: 0 <= i < |raw| ==>
         lines[i].account == raw[i].account && Nearest(raw[i].debit, lines[i].debit) && Nearest(raw[i].credit, lines[i].credit)
  }

  /** Normalisation takes every amount to its nearest cent, and fails exactly when some amount has none. */
  lemma {:induction false} NormalizedIsNearest(raw: seq<RawLine>, lines: seq<Line>)
    ensures Normalized(raw) == Success(lines) <==> Rounds(raw, lines)
  {
    if raw != [] {
      var n := |raw| - 1;
      if |lines| == |raw| {
        NormalizedIsNearest(raw[..n], lines[..n]);
        NearestLine(raw[n], lines[n]);
        assert lines == lines[..n] + [lines[n]];
      }
      if Normalized(raw[..n]).Success? {
        NormalizedIsNearest(raw[..n], Normalized(raw[..n]).value);
      }
    }
  }

  lemma NearestLine(r: RawLine, line: Line)
    ensures NormalizedLine(r) == Success(line) <==>
            line.account == r.account && Nearest(r.debit, line.debit) && Nearest(r.credit, line.credit)
  {
  }

  function RawOf(lines: seq<Line>): seq<RawLine> {
    seq(|lines|, i requires 0 <= i < |lines| =>
      RawLine(lines[i].account, Exact(lines[i].debit as real), Exact(lines[i].credit as real)))
  }

  lemma {:induction false} WholeCentLinesAreKept(lines: seq<Line>)
    ensures Normalized(RawOf(lines)) == Success(lines)
  {
    if lines != [] {
      var last := lines[|lines| - 1];
      WholeCentLinesAreKept(lines[..|lines| - 1]);
      WholeCentsAreKept(last.debit);
      WholeCentsAreKept(last.credit);
      assert RawOf(lines)[..|lines| - 1] == RawOf(lines[..|lines| - 1]);
      assert lines[..|lines| - 1] + [last] == lines;
    }
  }

  function TotalNet(lines: seq<Line>): int {
    if lines == [] then 0 else TotalNet(lines[..|lines| - 1]) + lines[|lines| - 1].debit - lines[|lines| - 1].credit
  }

  predicate OneSided(line: Line) {
    line.debit >= 0 && line.credit >= 0 && (line.debit > 0) != (line.credit > 0)
  }

  predicate OwnAccount(accounts: set<Account>, chama: nat, line: Line) {
    line.account in accounts && line.account.chama == chama
  }

  /** What a posted transaction promises about its lines. */
  ghost predicate Balanced(accounts: set<Account>, chama: nat, lines: seq<Line>) {
    && (forall i :: 0 <= i < |lines| ==> OneSided(lines[i]) && OwnAccount(accounts, chama, lines[i]))
    && (exists i :: 0 <= i < |lines| && lines[i].debit > 0)
    && (exists i :: 0 <= i < |lines| && lines[i].credit > 0)
    && TotalNet(lines) == 0
  }

  function LineFault(accounts: set<Account>, chama: nat, line: Line): Option<LedgerError> {
    if line.debit < 0 || line.credit < 0 then Some(NegativeAmount)
    else if (line.debit > 0) == (line.credit > 0) then Some(NotOneSided)
    else if !OwnAccount(accounts, chama, line) then Some(UnknownAccount)
    else None
  }

  function FirstFault(accounts: set<Account>, chama: nat, lines: seq<Line>): Option<LedgerError> {
    if lines == [] then None
    else
      match FirstFault(accounts, chama, lines[..|lines| - 1])
      case Some(e) => Some(e)
      case None => LineFault(accounts, chama, lines[|lines| - 1])
  }

  /** The error that validation reports, if any. */
  function LinesFault(accounts: set<Account>, chama: nat, lines: seq<Line>): Option<LedgerError> {
    if lines == [] then Some(NoEntries)
    else if FirstFault(accounts, chama, lines).Some? then FirstFault(accounts, chama, lines)
    else if !(exists i :: 0 <= i < |lines| && lines[i].debit > 0) then Some(MissingSide)
    else if !(exists i :: 0 <= i < |lines| && lines[i].credit > 0) then Some(MissingSide)
    else if TotalNet(lines) != 0 then Some(Unbalanced)
    else None
  }

  lemma {:induction false} NoFaultMeansSoundLines(accounts: set<Account>, chama: nat, lines: seq<Line>)
    ensures FirstFault(accounts, chama, lines).None? <==>
            forall i :: 0 <= i < |lines| ==> OneSided(lines[i]) && OwnAccount(accounts, chama, lines[i])
  {
    if lines != [] {
      NoFaultMeansSoundLines(accounts, chama, lines[..|lines| - 1]);
    }
  }

  /** Validation accepts exactly the balanced two-sided lists of one-sided lines on own accounts. */
  lemma ValidationIsExact(accounts: set<Account>, chama: nat, lines: seq<Line>)
    ensures LinesFault(accounts, chama, lines).None? <==> Balanced(accounts, chama, lines)
  {
    NoFaultMeansSoundLines(accounts, chama, lines);
  }

  /** What a rejection says about some line, or about the lines as a whole, is true. */
  ghost predicate FaultIsTrue(accounts: set<Account>, chama: nat, lines: seq<Line>, e: LedgerError) {
    match e
    case NegativeAmount => exists i :: 0 <= i < |lines| && (lines[i].debit < 0 || lines[i].credit < 0)
    case NotOneSided =>
      exists i :: 0 <= i < |lines| &&
        ((lines[i].debit == 0 && lines[i].credit == 0) || (lines[i].debit > 0 && lines[i].credit > 0))
    case UnknownAccount => exists i :: 0 <= i < |lines| && (lines[i].account !in accounts || lines[i].account.chama != chama)
    case NoEntries => lines == []
    case MissingSide => (forall i :: 0 <= i < |lines| ==> lines[i].debit == 0) || (forall i :: 0 <= i < |lines| ==> lines[i].credit == 0)
    case Unbalanced => TotalNet(lines) != 0
    case _ => false
  }

  lemma {:induction false} FirstFaultIsTrue(accounts: set<Account>, chama: nat, lines: seq<Line>)
    requires FirstFault(accounts, chama, lines).Some?
    ensures FirstFault(accounts, chama, lines).value in {NegativeAmount, NotOneSided, UnknownAccount}
    ensures FaultIsTrue(accounts, chama, lines, FirstFault(accounts, chama, lines).value)
  {
    if FirstFault(accounts, chama, lines[..|lines| - 1]).Some? {
      FirstFaultIsTrue(accounts, chama, lines[..|lines| - 1]);
    }
  }

  /** Validation names a fault that the lines have. */
  lemma RejectionsAreTrue(accounts: set<Account>, chama: nat, lines: seq<Line>)
    requires LinesFault(accounts, chama, lines).Some?
    ensures FaultIsTrue(accounts, chama, lines, LinesFault(accounts, chama, lines).value)
  {
    NoFaultMeansSoundLines(accounts, chama, lines);
    if FirstFault(accounts, chama, lines).Some? {
      FirstFaultIsTrue(accounts, chama, lines);
    }
  }

  // ----- the store ------------------------------------------------------------------------------

  /** The transaction stored under a source, if any. */
  function Find(txs: seq<Transaction>, source: Source): (found: Option<nat>)
    ensures found.Some? ==> found.value < |txs| && txs[found.value].source == source
    ensures found.None? ==> forall k :: 0 <= k < |txs| ==> txs[k].source != source
  {
    if txs == [] then None
    else
      var last := |txs| - 1;
      var front := Find(txs[..last], source);
      if front.Some? then front else if txs[last].source == source then Some(last) else None
  }

  lemma FindAfterAppend(txs: seq<Transaction>, t: Transaction, source: Source)
    ensures Find(txs + [t], source) ==
            if Find(txs, source).Some? then Find(txs, source)
            else if t.source == source then Some(|txs|) else None
  {
  }

  predicate IsReversed(txs: seq<Transaction>, id: nat) {
    exists k :: 0 <= k < |txs| && txs[k].reverses == Some(id)
  }

  /** An idempotent retry returns the stored transaction only when the whole payload matches. */
  function Resolve(existing: Transaction, id: nat, t: Transaction): Posted {
    if existing.chama != t.chama then Failure(OtherChama)
    else if existing.memo != t.memo then Failure(OtherDescription)
    else if existing.reverses != t.reverses then Failure(OtherReversal)
    else if multiset(existing.lines) != multiset(t.lines) then Failure(OtherLines)
    else Success(id)
  }

  function ReferenceFault(txs: seq<Transaction>, t: Transaction): Option<LedgerError> {
    if t.reverses.None? then None
    else
      var target := t.reverses.value;
      if target >= |txs| || txs[target].chama != t.chama then Some(TargetMissing)
      else if txs[target].reverses.Some? then Some(TargetIsReversal)
      else if IsReversed(txs, target) then Some(AlreadyReversed)
      else None
  }

  /** Everything that is decided before the store is read. */
  function Prepare(accounts: set<Account>, q: Request): Result<Transaction, LedgerError> {
    match Normalized(q.raw)
    case Failure(e) => Failure(e)
    case Success(lines) =>
      if LinesFault(accounts, q.chama, lines).Some? then Failure(LinesFault(accounts, q.chama, lines).value)
      else if q.source.kind == LedgerReversal && q.reverses.None? then Failure(ReversalWithoutReference)
      else if q.reverses.Some? && q.source.kind != LedgerReversal then Failure(ReferenceWithoutReversal)
      else Success(Transaction(q.chama, q.source, q.memo, q.reverses, lines))
  }

  function Post(accounts: set<Account>, txs: seq<Transaction>, q: Request): (Posted, seq<Transaction>) {
    match Prepare(accounts, q)
    case Failure(e) => (Failure(e), txs)
    case Success(t) =>
      if Find(txs, t.source).Some? then
        (Resolve(txs[Find(txs, t.source).value], Find(txs, t.source).value, t), txs)
      else if ReferenceFault(txs, t).Some? then (Failure(ReferenceFault(txs, t).value), txs)
      else (Success(|txs|), txs + [t])
  }

  function Mirrored(lines: seq<Line>): (m: seq<Line>)
    ensures |m| == |lines|
  {
    seq(|lines|, i requires 0 <= i < |lines| => Line(lines[i].account, lines[i].credit, lines[i].debit))
  }

  function Reverse(accounts: set<Account>, txs: seq<Transaction>, chama: nat, id: nat, memo: Option<Memo>)
    : (Posted, seq<Transaction>)
  {
    if id >= |txs| || txs[id].chama != chama then (Failure(TargetMissing), txs)
    else if txs[id].reverses.Some? then (Failure(TargetIsReversal), txs)
    else Post(accounts, txs, Request(chama, Source(LedgerReversal, id), memo, RawOf(Mirrored(txs[id].lines)), Some(id)))
  }

  // ----- well-formedness in every reachable store -----------------------------------------------

  ghost predicate SoundTransaction(accounts: set<Account>, txs: seq<Transaction>, k: nat)
    requires k < |txs|
  {
    var t := txs[k];
    && Balanced(accounts, t.chama, t.lines)
    && (t.reverses.Some? <==> t.source.kind == LedgerReversal)
    && (t.reverses.Some? ==>
          t.reverses.value < k && txs[t.reverses.value].reverses.None? && txs[t.reverses.value].chama == t.chama)
  }

  ghost predicate WellFormed(accounts: set<Account>, txs: seq<Transaction>) {
    && (forall k :: 0 <= k < |txs| ==> SoundTransaction(accounts, txs, k))
    && (forall j, k :: 0 <= j < k < |txs| ==> txs[j].source != txs[k].source)
    && (forall j, k :: 0 <= j < k < |txs| && txs[j].reverses.Some? ==> txs[j].reverses != txs[k].reverses)
  }

  lemma AppendKeepsWellFormed(accounts: set<Account>, txs: seq<Transaction>, t: Transaction)
    requires WellFormed(accounts, txs) && Balanced(accounts, t.chama, t.lines)
    requires t.reverses.Some? <==> t.source.kind == LedgerReversal
    requires Find(txs, t.source).None? && ReferenceFault(txs, t).None?
    ensures WellFormed(accounts, txs + [t])
  {
    forall k | 0 <= k < |txs| + 1
      ensures SoundTransaction(accounts, txs + [t], k)
    {
      if k < |txs| {
        assert SoundTransaction(accounts, txs, k);
      }
    }
  }

  lemma PreparedIsSound(accounts: set<Account>, q: Request)
    requires Prepare(accounts, q).Success?
    ensures var t := Prepare(accounts, q).value;
            && Balanced(accounts, t.chama, t.lines)
            && (t.reverses.Some? <==> t.source.kind == LedgerReversal)
            && t.source == q.source && t.reverses == q.reverses && t.chama == q.chama
  {
    ValidationIsExact(accounts, q.chama, Normalized(q.raw).value);
  }

  /** Every posting keeps the store well formed, and only ever appends. */
  lemma PostKeepsWellFormed(accounts: set<Account>, txs: seq<Transaction>, q: Request)
    requires WellFormed(accounts, txs)
    ensures WellFormed(accounts, Post(accounts, txs, q).1)
    ensures txs <= Post(accounts, txs, q).1
  {
    if Prepare(accounts, q).Success? {
      PreparedIsSound(accounts, q);
      var t := Prepare(accounts, q).value;
      if Find(txs, t.source).None? && ReferenceFault(txs, t).None? {
        AppendKeepsWellFormed(accounts, txs, t);
      }
    }
  }

  /** A posting under a new source may refer to this reversal target, or to none. */
  ghost predicate ReferenceOk(txs: seq<Transaction>, q: Request) {
    && (q.source.kind == LedgerReversal <==> q.reverses.Some?)
    && (q.reverses.Some? ==>
          var target := q.reverses.value;
          && target < |txs| && txs[target].chama == q.chama && txs[target].reverses.None?
          && forall k :: 0 <= k < |txs| ==> txs[k].reverses != Some(target))
  }

  /**
   Exactly what is stored: a request under a new source whose amounts are finite, whose lines, rounded to the cent,
   are balanced on own accounts, and whose reversal reference is sound. Everything else leaves the store alone.
   */
  lemma PostStoresIff(accounts: set<Account>, txs: seq<Transaction>, q: Request, lines: seq<Line>)
    ensures var t := Transaction(q.chama, q.source, q.memo, q.reverses, lines);
            && (Post(accounts, txs, q).1 == txs + [t]
                <==> Find(txs, q.source).None? && Rounds(q.raw, lines) && Balanced(accounts, q.chama, lines) && ReferenceOk(txs, q))
            && (Post(accounts, txs, q).1 == txs + [t] ==> Post(accounts, txs, q).0 == Success(|txs|))
    ensures Post(accounts, txs, q).1 != txs ==> exists t :: Post(accounts, txs, q).1 == txs + [t]
  {
    PreparedIff(accounts, q, lines);
    var t := Transaction(q.chama, q.source, q.memo, q.reverses, lines);
    if Prepare(accounts, q).Success? {
      AppendedIs(txs, Prepare(accounts, q).value, t);
      ReferenceIsSound(txs, q, Prepare(accounts, q).value);
    }
  }

  lemma PreparedIff(accounts: set<Account>, q: Request, lines: seq<Line>)
    ensures Prepare(accounts, q) == Success(Transaction(q.chama, q.source, q.memo, q.reverses, lines))
            <==> Rounds(q.raw, lines) && Balanced(accounts, q.chama, lines) && (q.source.kind == LedgerReversal <==> q.reverses.Some?)
  {
    NormalizedIsNearest(q.raw, lines);
    ValidationIsExact(accounts, q.chama, lines);
  }

  lemma AppendedIs(txs: seq<Transaction>, s: Transaction, t: Transaction)
    ensures txs + [s] == txs + [t] <==> s == t
    ensures txs != txs + [t]
  {
    assert (txs + [s])[|txs|] == s && (txs + [t])[|txs|] == t;
  }

  lemma ReferenceIsSound(txs: seq<Transaction>, q: Request, t: Transaction)
    requires t.chama == q.chama && t.reverses == q.reverses && (q.source.kind == LedgerReversal <==> q.reverses.Some?)
    ensures ReferenceFault(txs, t).None? <==> ReferenceOk(txs, q)
  {
  }

  function Postings(accounts: set<Account>, txs: seq<Transaction>, qs: seq<Request>): seq<Transaction> {
    if qs == [] then txs else Post(accounts, Postings(accounts, txs, qs[..|qs| - 1]), qs[|qs| - 1]).1
  }

  lemma {:induction false} LedgerIsAlwaysWellFormed(accounts: set<Account>, qs: seq<Request>)
    ensures WellFormed(accounts, Postings(accounts, [], qs))
  {
    if qs != [] {
      LedgerIsAlwaysWellFormed(accounts, qs[..|qs| - 1]);
      PostKeepsWellFormed(accounts, Postings(accounts, [], qs[..|qs| - 1]), qs[|qs| - 1]);
    }
  }

  /** Reposting a request that was just accepted returns the same transaction and stores nothing. */
  lemma RetryIsIdempotent(accounts: set<Account>, txs: seq<Transaction>, q: Request)
    requires Post(accounts, txs, q).0.Success?
    ensures Post(accounts, Post(accounts, txs, q).1, q) == Post(accounts, txs, q)
  {
  }

  // ----- balances -------------------------------------------------------------------------------

  /** Debits minus credits of one account over some lines. */
  function Net(lines: seq<Line>, account: Account): int {
    if lines == [] then 0
    else
      var last := lines[|lines| - 1];
      Net(lines[..|lines| - 1], account) + if last.account == account then last.debit - last.credit else 0
  }

  function Balance(txs: seq<Transaction>, account: Account): int {
    if txs == [] then 0 else Balance(txs[..|txs| - 1], account) + Net(txs[|txs| - 1].lines, account)
  }

  lemma BalanceAfterAppend(txs: seq<Transaction>, t: Transaction, account: Account)
    ensures Balance(txs + [t], account) == Balance(txs, account) + Net(t.lines, account)
  {
  }

  /** How much a reversal takes back out of an account. */
  function TakenBack(t: Transaction, cash: Account): (amount: int)
    ensures amount >= 0
  {
    if t.reverses.Some? && Net(t.lines, cash) < 0 then -Net(t.lines, cash) else 0
  }

  function ReversedMoneyIn(txs: seq<Transaction>, cash: Account): (total: int)
    ensures total >= 0
  {
    if txs == [] then 0 else ReversedMoneyIn(txs[..|txs| - 1], cash) + TakenBack(txs[|txs| - 1], cash)
  }

  lemma GrossAfterAppend(txs: seq<Transaction>, t: Transaction, cash: Account)
    ensures Balance(txs + [t], cash) + ReversedMoneyIn(txs + [t], cash)
            == Balance(txs, cash) + ReversedMoneyIn(txs, cash) + Net(t.lines, cash) + TakenBack(t, cash)
  {
  }

  lemma {:induction false} SomeMoneyTakenBack(txs: seq<Transaction>, cash: Account)
    requires ReversedMoneyIn(txs, cash) > 0
    ensures exists k :: 0 <= k < |txs| && txs[k].reverses.Some? && Net(txs[k].lines, cash) < 0
  {
    if TakenBack(txs[|txs| - 1], cash) == 0 {
      SomeMoneyTakenBack(txs[..|txs| - 1], cash);
    }
  }

  lemma {:induction false} MirroredNetsToZero(lines: seq<Line>, account: Account)
    ensures Net(Mirrored(lines), account) == -Net(lines, account)
    ensures TotalNet(Mirrored(lines)) == -TotalNet(lines)
  {
    if lines != [] {
      MirroredNetsToZero(lines[..|lines| - 1], account);
      assert Mirrored(lines)[..|lines| - 1] == Mirrored(lines[..|lines| - 1]);
    }
  }

  lemma MirroredIsBalanced(accounts: set<Account>, chama: nat, lines: seq<Line>)
    requires Balanced(accounts, chama, lines)
    ensures Balanced(accounts, chama, Mirrored(lines))
  {
    var m := Mirrored(lines);
    var d :| 0 <= d < |lines| && lines[d].debit > 0;
    var c :| 0 <= c < |lines| && lines[c].credit > 0;
    assert m[d].credit > 0 && m[c].debit > 0;
    MirroredNetsToZero(lines, Account(chama, CASH));
  }

  /** The mirrored request passes every check that precedes the store. */
  lemma MirroredIsPrepared(accounts: set<Account>, txs: seq<Transaction>, id: nat, memo: Option<Memo>)
    requires WellFormed(accounts, txs) && id < |txs|
    ensures Prepare(accounts, Request(txs[id].chama, Source(LedgerReversal, id), memo, RawOf(Mirrored(txs[id].lines)), Some(id)))
            == Success(Transaction(txs[id].chama, Source(LedgerReversal, id), memo, Some(id), Mirrored(txs[id].lines)))
  {
    assert SoundTransaction(accounts, txs, id);
    MirroredIsBalanced(accounts, txs[id].chama, txs[id].lines);
    WholeCentLinesAreKept(Mirrored(txs[id].lines));
    ValidationIsExact(accounts, txs[id].chama, Mirrored(txs[id].lines));
  }

  /** A first reversal appends the mirror image, and the pair nets to zero on every account. */
  lemma FirstReversalCancels(
      accounts: set<Account>, txs: seq<Transaction>, id: nat, memo: Option<Memo>, account: Account)
    requires WellFormed(accounts, txs) && id < |txs| && txs[id].reverses.None?
    requires Find(txs, Source(LedgerReversal, id)).None? && !IsReversed(txs, id)
    ensures var r := Reverse(accounts, txs, txs[id].chama, id, memo);
            && r.0 == Success(|txs|) && |r.1| == |txs| + 1 && IsReversed(r.1, id)
            && Balance(r.1, account) == Balance(txs, account) - Net(txs[id].lines, account)
  {
    MirroredIsPrepared(accounts, txs, id, memo);
    var t := Transaction(txs[id].chama, Source(LedgerReversal, id), memo, Some(id), Mirrored(txs[id].lines));
    BalanceAfterAppend(txs, t, account);
    MirroredNetsToZero(txs[id].lines, account);
    assert (txs + [t])[|txs|].reverses == Some(id);
  }

  /**
   A reversal is stored if and only if its target is this Chama's, is no reversal itself and has not been reversed; it
   is told that the target is missing if and only if this Chama has no such transaction.
   */
  lemma ReverseStoresIff(accounts: set<Account>, txs: seq<Transaction>, chama: nat, id: nat, memo: Option<Memo>)
    requires WellFormed(accounts, txs)
    ensures var (answer, after) := Reverse(accounts, txs, chama, id, memo);
            && (after != txs <==>
                  && id < |txs| && txs[id].chama == chama && txs[id].reverses.None?
                  && Find(txs, Source(LedgerReversal, id)).None? && !IsReversed(txs, id))
            && (answer == Failure(TargetMissing) <==> id >= |txs| || txs[id].chama != chama)
  {
    if id < |txs| && txs[id].chama == chama {
      MirroredIsPrepared(accounts, txs, id, memo);
      AppendedIs(txs, txs[id], Transaction(chama, Source(LedgerReversal, id), memo, Some(id), Mirrored(txs[id].lines)));
    }
  }

  /** Once reversed, a transaction is never reversed again: a retry is either recognised or refused. */
  lemma SecondReversalStoresNothing(
      accounts: set<Account>, txs: seq<Transaction>, chama: nat, id: nat, memo: Option<Memo>)
    requires WellFormed(accounts, txs) && IsReversed(txs, id)
    ensures Reverse(accounts, txs, chama, id, memo).1 == txs
    ensures Reverse(accounts, txs, chama, id, memo).0.Success? ==>
              && Find(txs, Source(LedgerReversal, id)) == Some(Reverse(accounts, txs, chama, id, memo).0.value)
              && txs[Reverse(accounts, txs, chama, id, memo).0.value].memo == memo
  {
    if id < |txs| && txs[id].chama == chama {
      MirroredIsPrepared(accounts, txs, id, memo);
    }
  }

  function SumOfBalances(txs: seq<Transaction>, listed: seq<Account>): int {
    if listed == [] then 0
    else SumOfBalances(txs, listed[..|listed| - 1]) + Balance(txs, listed[|listed| - 1])
  }

  function SumOfNets(lines: seq<Line>, listed: seq<Account>): int {
    if listed == [] then 0
    else SumOfNets(lines, listed[..|listed| - 1]) + Net(lines, listed[|listed| - 1])
  }

  function Hits(account: Account, listed: seq<Account>): nat {
    if listed == [] then 0
    else Hits(account, listed[..|listed| - 1]) + if listed[|listed| - 1] == account then 1 else 0
  }

  lemma {:induction false} HitsOnce(account: Account, listed: seq<Account>)
    requires Distinct(listed)
    ensures Hits(account, listed) == if account in listed then 1 else 0
  {
    if listed != [] {
      HitsOnce(account, listed[..|listed| - 1]);
      assert listed == listed[..|listed| - 1] + [listed[|listed| - 1]];
    }
  }

  lemma {:induction false} NetsOfOneMoreLine(lines: seq<Line>, listed: seq<Account>)
    requires lines != []
    ensures var last := lines[|lines| - 1];
            SumOfNets(lines, listed) ==
              SumOfNets(lines[..|lines| - 1], listed) + Hits(last.account, listed) * (last.debit - last.credit)
  {
    if listed != [] {
      NetsOfOneMoreLine(lines, listed[..|listed| - 1]);
    }
  }

  lemma {:induction false} NetsOfNoLines(listed: seq<Account>)
    ensures SumOfNets([], listed) == 0
  {
    if listed != [] {
      NetsOfNoLines(listed[..|listed| - 1]);
    }
  }

  /** Lines on listed accounts contribute their total; lines on unlisted accounts contribute nothing. */
  lemma {:induction false} NetsAddUp(lines: seq<Line>, listed: seq<Account>, inside: bool)
    requires Distinct(listed)
    requires forall i :: 0 <= i < |lines| ==> (lines[i].account in listed <==> inside)
    ensures SumOfNets(lines, listed) == if inside then TotalNet(lines) else 0
  {
    if lines == [] {
      NetsOfNoLines(listed);
    } else {
      NetsAddUp(lines[..|lines| - 1], listed, inside);
      NetsOfOneMoreLine(lines, listed);
      HitsOnce(lines[|lines| - 1].account, listed);
    }
  }

  lemma {:induction false} BalancesOfOneMoreTransaction(txs: seq<Transaction>, listed: seq<Account>)
    ensures if txs == [] then SumOfBalances(txs, listed) == 0
            else SumOfBalances(txs, listed) ==
                   SumOfBalances(txs[..|txs| - 1], listed) + SumOfNets(txs[|txs| - 1].lines, listed)
  {
    if listed != [] {
      BalancesOfOneMoreTransaction(txs, listed[..|listed| - 1]);
    }
  }

  lemma WellFormedPrefix(accounts: set<Account>, txs: seq<Transaction>)
    requires WellFormed(accounts, txs) && txs != []
    ensures WellFormed(accounts, txs[..|txs| - 1])
  {
    var front := txs[..|txs| - 1];
    forall k | 0 <= k < |front|
      ensures SoundTransaction(accounts, front, k)
    {
      assert SoundTransaction(accounts, txs, k);
    }
  }

  /** The balances of all accounts of one Chama sum to zero, whatever other Chamas post. */
  lemma {:induction false} AllBalancesSumToZero(
      accounts: set<Account>, txs: seq<Transaction>, chama: nat, listed: seq<Account>)
    requires WellFormed(accounts, txs) && Distinct(listed)
    requires forall a :: a in listed <==> a in accounts && a.chama == chama
    ensures SumOfBalances(txs, listed) == 0
  {
    BalancesOfOneMoreTransaction(txs, listed);
    if txs != [] {
      var k := |txs| - 1;
      WellFormedPrefix(accounts, txs);
      AllBalancesSumToZero(accounts, txs[..k], chama, listed);
      assert SoundTransaction(accounts, txs, k);
      forall i | 0 <= i < |txs[k].lines|
        ensures txs[k].lines[i].account in listed <==> txs[k].chama == chama
      {
        assert OwnAccount(accounts, txs[k].chama, txs[k].lines[i]);
      }
      NetsAddUp(txs[k].lines, listed, txs[k].chama == chama);
    }
  }
}
