/**
 Runs of the payment protocol: any interleaving of client requests, provider answers, deliveries and
 redeliveries, Paybill confirmations, repairs and crashes with everything else that happens to the books.
 */
module PaymentRuns {
  import opened Wrappers
  import opened Ledger
  import B = Books
  import R = Runs
  import S = Subledger
  import opened Reconciliation
  import F = Flights
  import V = Solvency
  import G = Guarantees
  import opened Payments
  import P = PaymentProtocol

  datatype Action =
    | DoCreate(ask: Ask)
    | DoInitiate(intent: nat, connection: nat, admitted: bool, query: Query, reply: Reply, crash: bool)
    | DoRepair(intent: nat)
    | DoDeliver(connection: nat, cb: Callback, point: CrashPoint)
    | DoConfirm(connection: nat, fits: bool, note: Paybill, member: Option<nat>, period: int, lostRace: bool, point: CrashPoint)
    | Office(op: B.Op)

  ghost predicate Sound(w: World) {
    Inv(w.books) && P.Protocol(w)
  }

  function Step(w: World, a: Action): (end: (World, Answer))
    requires B.Usable(w.books)
    ensures B.Usable(end.0.books)
  {
    match a
    case DoCreate(ask) => Create(w, ask)
    case DoInitiate(i, connection, admitted, query, reply, crash) => Initiate(w, i, connection, admitted, query, reply, crash)
    case DoRepair(i) => Repair(w, i)
    case DoDeliver(connection, cb, point) => Deliver(w, connection, cb, point)
    case DoConfirm(connection, fits, note, member, period, lostRace, point) =>
      ConfirmPaybill(w, connection, fits, note, member, period, lostRace, point)
    case Office(op) => (w.(books := R.Perform(w.books, op).0), Served)
  }

  // ----- the books move only by operations of the books -----------------------------------------

  /** The operations a request may perform: the one it is, or recording and settling contributions. */
  predicate May(a: Action, op: B.Op) {
    if a.Office? then op == a.op else op.DoRecord? || op.DoSettle?
  }

  ghost predicate ByOne(a: Action, b: B.Books, after: B.Books)
    requires B.Usable(b)
  {
    exists op: B.Op :: May(a, op) && R.Perform(b, op).0 == after
  }

  /** The request left the books alone, or performed one or two operations on them. */
  ghost predicate Operates(a: Action, b: B.Books, after: B.Books)
    requires B.Usable(b)
  {
    after == b || ByOne(a, b, after) || exists mid: B.Books :: B.Usable(mid) && ByOne(a, b, mid) && ByOne(a, mid, after)
  }

  lemma OneOperation(a: Action, b: B.Books, op: B.Op)
    requires B.Usable(b) && May(a, op)
    ensures ByOne(a, b, R.Perform(b, op).0)
  {
  }

  lemma SettlingOperates(a: Action, b: B.Books, ask: Ask)
    requires B.Usable(b) && !a.Office? && SettleLinked(b, ask).Some?
    ensures Operates(a, b, SettleLinked(b, ask).value)
  {
    if ask.contribution.Some? {
      OneOperation(a, b, B.DoSettle(ask.contribution.value, true));
    }
  }

  lemma ConfirmingOperates(a: Action, b: B.Books, note: Paybill, member: Option<nat>, period: int, lostRace: bool)
    requires B.Usable(b) && !a.Office?
    ensures Operates(a, b, SettleConfirmation(b, note, member, period, lostRace).0)
  {
    if note.amount.Some? && note.amount.value > 0 && note.number.Some? && member.Some? {
      var open := FindOpen(b.contributions, member.value, period);
      if open.Some? {
        OneOperation(a, b, B.DoSettle(open.value, true));
      } else {
        RecordingOperates(a, b, member.value, note.amount.value, period);
      }
    }
  }

  lemma RecordIsOne(a: Action, b: B.Books, member: nat, amount: int, period: int)
    requires B.Usable(b) && !a.Office?
    ensures ByOne(a, b, B.RecordContribution(b, member, amount, period).0)
    ensures B.Usable(B.RecordContribution(b, member, amount, period).0)
  {
    OneOperation(a, b, B.DoRecord(member, amount, period));
  }

  lemma SettleIsOne(a: Action, b: B.Books, c: nat)
    requires B.Usable(b) && !a.Office?
    ensures ByOne(a, b, B.Settle(b, c, true).0)
  {
    OneOperation(a, b, B.DoSettle(c, true));
  }

  lemma RecordingOperates(a: Action, b: B.Books, member: nat, amount: int, period: int)
    requires B.Usable(b) && !a.Office?
    ensures B.Usable(B.RecordContribution(b, member, amount, period).0)
    ensures Operates(a, b, B.Settle(B.RecordContribution(b, member, amount, period).0, |b.contributions|, true).0)
  {
    RecordIsOne(a, b, member, amount, period);
    SettleIsOne(a, B.RecordContribution(b, member, amount, period).0, |b.contributions|);
  }

  /** A request touches the books only by operations on them; a payment only records and settles contributions. */
  lemma EveryRequestOperates(w: World, a: Action)
    requires B.Usable(w.books)
    ensures Operates(a, w.books, Step(w, a).0.books)
  {
    if Step(w, a).0.books != w.books {
      match a {
        case DoInitiate(i, connection, admitted, query, reply, crash) => SettlingOperates(a, w.books, w.intents[i].ask);
        case DoDeliver(connection, cb, point) => DeliverySettles(w, a);
        case DoConfirm(connection, fits, note, member, period, lostRace, point) =>
          ConfirmingOperates(a, w.books, note, member, period, lostRace);
        case Office(op) => OneOperation(a, w.books, op);
      }
    }
  }

  /** A delivery touches the books only by settling the contribution of the intent it found. */
  lemma DeliveryBooks(w: World, connection: nat, cb: Callback, point: CrashPoint)
    requires w.books.price > 0 && Deliver(w, connection, cb, point).0.books != w.books
    ensures FindAttempt(w.intents, cb).Some?
    ensures SettleLinked(w.books, w.intents[FindAttempt(w.intents, cb).value.intent].ask)
            == Some(Deliver(w, connection, cb, point).0.books)
  {
  }

  lemma DeliverySettles(w: World, a: Action)
    requires B.Usable(w.books) && a.DoDeliver? && Deliver(w, a.connection, a.cb, a.point).0.books != w.books
    ensures Operates(a, w.books, Deliver(w, a.connection, a.cb, a.point).0.books)
  {
    DeliveryBooks(w, a.connection, a.cb, a.point);
    SettlingOperates(a, w.books, w.intents[FindAttempt(w.intents, a.cb).value.intent].ask);
  }

  /** A request that does not crash between the two commits of a reversal. */
  predicate Clean(a: Action) {
    a.Office? ==> !F.Crashes(a.op)
  }

  /** What operations on the books keep, requests keep. */
  ghost predicate BooksKeep(b: B.Books, after: B.Books, clean: bool, account: Account) {
    && Keeps(b, after, account)
    && (clean && R.Settled(b) ==> R.Settled(after))
    && (V.Solvent(b) ==> V.Solvent(after))
  }

  lemma OneOperationKeeps(a: Action, b: B.Books, after: B.Books, account: Account)
    requires Inv(b) && ByOne(a, b, after)
    ensures BooksKeep(b, after, Clean(a), account)
  {
    var op: B.Op :| May(a, op) && R.Perform(b, op).0 == after;
    R.EveryOperationKeeps(b, op, account);
    if Clean(a) && R.Settled(b) {
      F.UncrashedOperationStaysSettled(b, op);
    }
    if V.Solvent(b) {
      V.OperationKeepsSolvent(b, op);
    }
  }

  lemma RequestKeepsBooks(w: World, a: Action, account: Account)
    requires Inv(w.books)
    ensures BooksKeep(w.books, Step(w, a).0.books, Clean(a), account)
  {
    EveryRequestOperates(w, a);
    OperationsKeep(a, w.books, Step(w, a).0.books, account);
  }

  lemma OperationsKeep(a: Action, b: B.Books, after: B.Books, account: Account)
    requires Inv(b) && Operates(a, b, after)
    ensures BooksKeep(b, after, Clean(a), account)
  {
    if after != b {
      if ByOne(a, b, after) {
        OneOperationKeeps(a, b, after, account);
      } else {
        var mid: B.Books :| B.Usable(mid) && ByOne(a, b, mid) && ByOne(a, mid, after);
        OneOperationKeeps(a, b, mid, account);
        OneOperationKeeps(a, mid, after, account);
      }
    }
  }

  // ----- steps keep everything ------------------------------------------------------------------

  /** Whatever the office does, contributions move only forward. */
  lemma OfficeAdvances(b: B.Books, op: B.Op)
    requires B.Usable(b)
    ensures R.Perform(b, op).0.price == b.price
    ensures P.ContributionsAdvance(b.contributions, R.Perform(b, op).0.contributions)
  {
  }

  lemma StepKeeps(w: World, a: Action)
    requires Sound(w)
    ensures Sound(Step(w, a).0) && P.Keeps(w, Step(w, a).0)
  {
    RequestKeepsBooks(w, a, Account(w.books.chama, CASH));
    ProtocolStepKeeps(w, a);
  }

  lemma ProtocolStepKeeps(w: World, a: Action)
    requires Sound(w)
    ensures P.Keeps(w, Step(w, a).0)
  {
    match a {
      case DoCreate(ask) => P.CreateKeeps(w, ask);
      case DoInitiate(i, connection, admitted, query, reply, crash) => P.InitiateKeeps(w, i, connection, admitted, query, reply, crash);
      case DoRepair(i) => P.RepairKeeps(w, i);
      case DoDeliver(connection, cb, point) => P.DeliverKeeps(w, connection, cb, point);
      case DoConfirm(connection, fits, note, member, period, lostRace, point) =>
        P.ConfirmPaybillKeeps(w, connection, fits, note, member, period, lostRace, point);
      case Office(op) => OfficeAdvances(w.books, op); P.BooksMove(w, R.Perform(w.books, op).0);
    }
  }

  function Run(w: World, actions: seq<Action>): (end: World)
    requires B.Usable(w.books)
    ensures B.Usable(end.books)
  {
    if actions == [] then w else Step(Run(w, actions[..|actions| - 1]), actions[|actions| - 1]).0
  }

  lemma RunOneMore(w: World, actions: seq<Action>, a: Action)
    requires B.Usable(w.books)
    ensures Run(w, actions + [a]) == Step(Run(w, actions), a).0
  {
    assert (actions + [a])[..|actions|] == actions;
  }

  /** Every run keeps the protocol and the books sound, and only moves forward. */
  lemma {:induction false} EveryRunKeeps(w: World, actions: seq<Action>)
    requires Sound(w)
    ensures Sound(Run(w, actions)) && P.Keeps(w, Run(w, actions))
  {
    if actions == [] {
      P.NothingMoves(w);
    } else {
      var before := Run(w, actions[..|actions| - 1]);
      EveryRunKeeps(w, actions[..|actions| - 1]);
      StepKeeps(before, actions[|actions| - 1]);
      P.KeepsTwice(w, before, Run(w, actions));
    }
  }

  ghost predicate AllClean(actions: seq<Action>) {
    forall k :: 0 <= k < |actions| ==> Clean(actions[k])
  }

  /** Every run keeps the books reconciled and solvent, and settled unless a reversal crashes between its commits. */
  lemma {:induction false} EveryRunKeepsBooks(w: World, actions: seq<Action>, account: Account)
    requires Inv(w.books)
    ensures BooksKeep(w.books, Run(w, actions).books, AllClean(actions), account)
  {
    if actions != [] {
      var before := Run(w, actions[..|actions| - 1]);
      EveryRunKeepsBooks(w, actions[..|actions| - 1], account);
      RequestKeepsBooks(before, actions[|actions| - 1], account);
      CleanToTheEnd(actions);
      BooksKeepTwice(w.books, before.books, Run(w, actions).books,
                     AllClean(actions[..|actions| - 1]), Clean(actions[|actions| - 1]), AllClean(actions), account);
    }
  }

  lemma CleanToTheEnd(actions: seq<Action>)
    requires actions != []
    ensures AllClean(actions) ==> AllClean(actions[..|actions| - 1]) && Clean(actions[|actions| - 1])
  {
  }

  lemma BooksKeepTwice(
      b: B.Books, mid: B.Books, after: B.Books, first: bool, second: bool, clean: bool, account: Account)
    requires BooksKeep(b, mid, first, account) && BooksKeep(mid, after, second, account) && (clean ==> first && second)
    ensures BooksKeep(b, after, clean, account)
  {
  }
}
