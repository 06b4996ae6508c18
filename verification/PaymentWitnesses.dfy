/** Concrete runs of the payment protocol, from the empty database, in which money or an answer goes missing. */
module PaymentWitnesses {
  import opened Wrappers
  import opened Money
  import opened Ledger
  import opened Subledger
  import B = Books
  import opened Payments
  import opened PaymentRuns
  import G = PaymentGuarantees
  import S = StaleView

  /** A client's request to collect 600.00 for contribution 0. */
  function Asking(key: nat): Ask {
    Ask(key, 0, 60000, 0, 0, Some(0))
  }

  function With(books: B.Books, intents: seq<Intent>): World {
    World(books, intents, [], 3)
  }

  function Fresh(key: nat): Intent {
    Intent(Asking(key), Pending, [])
  }

  const START := G.Opened(0, DEFAULT_PRICE, 3)
  const RECORDED: seq<Action> := [Office(B.DoRecord(0, 60000, 1))]
  const ONE_ASKED: seq<Action> := RECORDED + [DoCreate(Asking(1))]

  lemma OneIsRecorded()
    ensures Run(START, RECORDED) == With(S.Recorded(), [])
  {
    S.TheMemberSaves();
    assert [] + [Office(B.DoRecord(0, 60000, 1))] == RECORDED;
    RunOneMore(START, [], Office(B.DoRecord(0, 60000, 1)));
  }

  lemma FirstCreate()
    ensures Create(With(S.Recorded(), []), Asking(1)).0 == With(S.Recorded(), [Fresh(1)])
  {
  }

  lemma OneIsAsked()
    ensures Run(START, ONE_ASKED) == With(S.Recorded(), [Fresh(1)])
  {
    OneIsRecorded();
    FirstCreate();
    RunOneMore(START, RECORDED, DoCreate(Asking(1)));
  }

  // ----- the same create request, before and after its contribution is settled -------------------

  /** The client repeats its request: it is answered with the intent, until the treasurer confirms the contribution. */
  lemma IdenticalCreateIsRefusedOnceSettled()
    ensures var asked := Run(START, ONE_ASKED);
            var settled := Run(START, ONE_ASKED + [Office(B.DoSettle(0, false))]);
            && B.Usable(asked.books) && Create(asked, Asking(1)) == (asked, IntentIs(0))
            && settled == With(S.Saved(), [Fresh(1)]) && Create(settled, Asking(1)) == (settled, Raised)
  {
    OneIsAsked();
    S.TheMemberSaves();
    RunOneMore(START, ONE_ASKED, Office(B.DoSettle(0, false)));
    KeyIsFound();
  }

  lemma KeyIsFound()
    ensures FindKey([Fresh(1)], 1) == Some(0)
  {
    assert [Fresh(1)][..0] == [];
  }

  // ----- two intents for one contribution -------------------------------------------------------

  function Prompted(key: nat, id: nat): Intent {
    Intent(Asking(key), Processing, [Attempt(1, 0, Initiated, false, Some(id), Some(id), None)])
  }

  function PaidFor(key: nat, id: nat): Intent {
    Intent(Asking(key), Collected, [Attempt(1, 0, Succeeded, false, Some(id), Some(id), Some(id))])
  }

  function Prompt(i: nat, id: nat): Action {
    DoInitiate(i, 0, true, NoAnswer, Accepted(Some(id), None), false)
  }

  function Question(i: nat, id: nat): Action {
    DoInitiate(i, 0, true, FoundPaid(None, Some(id)), NoReply, false)
  }

  const BOTH_ASKED: seq<Action> := ONE_ASKED + [DoCreate(Asking(2))]
  const BOTH_PROMPTED: seq<Action> := BOTH_ASKED + [Prompt(0, 10)] + [Prompt(1, 20)]
  const BOTH_PAID: seq<Action> := BOTH_PROMPTED + [Question(0, 10)] + [Question(1, 20)]

  lemma BothAreAsked()
    ensures Run(START, BOTH_ASKED) == With(S.Recorded(), [Fresh(1), Fresh(2)])
  {
    OneIsAsked();
    RunOneMore(START, ONE_ASKED, DoCreate(Asking(2)));
    assert [Fresh(1)] + [Fresh(2)] == [Fresh(1), Fresh(2)];
  }

  lemma Prompting(books: B.Books, intents: seq<Intent>, i: nat, key: nat, id: nat)
    requires books.price > 0 && i < |intents| && intents[i] == Fresh(key)
    requires !IdsTaken(intents[i := Prompted(key, id).(attempts := [])], Place(i, 0), Some(id), None)
    ensures Initiate(With(books, intents), i, 0, true, NoAnswer, Accepted(Some(id), None), false).0
            == With(books, intents[i := Prompted(key, id)])
  {
    assert [] + Prompted(key, id).attempts == Prompted(key, id).attempts;
    assert intents[i := Prompted(key, id).(attempts := [])][i := Prompted(key, id)] == intents[i := Prompted(key, id)];
  }

  lemma FirstIsPrompted()
    ensures Run(START, BOTH_ASKED + [Prompt(0, 10)]) == With(S.Recorded(), [Prompted(1, 10), Fresh(2)])
  {
    BothAreAsked();
    RunOneMore(START, BOTH_ASKED, Prompt(0, 10));
    Prompting(S.Recorded(), [Fresh(1), Fresh(2)], 0, 1, 10);
    assert [Fresh(1), Fresh(2)][0 := Prompted(1, 10)] == [Prompted(1, 10), Fresh(2)];
  }

  lemma BothArePrompted()
    ensures Run(START, BOTH_PROMPTED) == With(S.Recorded(), [Prompted(1, 10), Prompted(2, 20)])
  {
    FirstIsPrompted();
    RunOneMore(START, BOTH_ASKED + [Prompt(0, 10)], Prompt(1, 20));
    Prompting(S.Recorded(), [Prompted(1, 10), Fresh(2)], 1, 2, 20);
    assert [Prompted(1, 10), Fresh(2)][1 := Prompted(2, 20)] == [Prompted(1, 10), Prompted(2, 20)];
  }

  lemma Paying(books: B.Books, intents: seq<Intent>, i: nat, key: nat, id: nat)
    requires books.price > 0 && i < |intents| && intents[i] == Prompted(key, id)
    requires !IdsTaken(intents, Place(i, 0), Some(id), Some(id)) && SettleLinked(books, Asking(key)).Some?
    ensures Initiate(With(books, intents), i, 0, true, FoundPaid(None, Some(id)), NoReply, false).0
            == With(SettleLinked(books, Asking(key)).value, intents[i := PaidFor(key, id)])
  {
    var attempts := intents[i].attempts;
    assert attempts[0 := PaidFor(key, id).attempts[0]] == PaidFor(key, id).attempts;
  }

  lemma SettledByTheFirst()
    ensures SettleLinked(S.Recorded(), Asking(1)) == Some(S.Saved()) && SettleLinked(S.Saved(), Asking(2)) == Some(S.Saved())
  {
    S.TheMemberSaves();
    assert B.Settle(S.Recorded(), 0, true) == B.Settle(S.Recorded(), 0, false);
  }

  lemma FirstIsPaid()
    ensures Run(START, BOTH_PROMPTED + [Question(0, 10)]) == With(S.Saved(), [PaidFor(1, 10), Prompted(2, 20)])
  {
    BothArePrompted();
    SettledByTheFirst();
    RunOneMore(START, BOTH_PROMPTED, Question(0, 10));
    Paying(S.Recorded(), [Prompted(1, 10), Prompted(2, 20)], 0, 1, 10);
    assert [Prompted(1, 10), Prompted(2, 20)][0 := PaidFor(1, 10)] == [PaidFor(1, 10), Prompted(2, 20)];
  }

  /**
   Two intents link one PENDING contribution and the member pays both prompts. Both intents are collected, 1200.00
   in all; the ledger holds one posting of 600.00.
   */
  lemma PaidTwicePostedOnce()
    ensures var end := Run(START, BOTH_PAID);
            && end == With(S.Saved(), [PaidFor(1, 10), PaidFor(2, 20)])
            && end.intents[0].ask.amount + end.intents[1].ask.amount == 120000
            && |end.books.txs| == 1 && B.Cash(end.books) == 60000
  {
    FirstIsPaid();
    SettledByTheFirst();
    S.SavedFunds();
    RunOneMore(START, BOTH_PROMPTED + [Question(0, 10)], Question(1, 20));
    Paying(S.Saved(), [PaidFor(1, 10), Prompted(2, 20)], 1, 2, 20);
    assert [PaidFor(1, 10), Prompted(2, 20)][1 := PaidFor(2, 20)] == [PaidFor(1, 10), PaidFor(2, 20)];
  }

  // ----- a Paybill confirmation that crashes right after its event is stored ----------------------

  /** Member 0 pays 600.00 to the Paybill for period 1. */
  function Confirming(point: CrashPoint): Action {
    DoConfirm(0, true, Paybill(Some(7), Some(60000), Some(0), true, 0), Some(0), 1, false, point)
  }

  /** Undisturbed the money is posted; after the crash and a redelivery the ledger is still empty. */
  lemma CrashedPaybillIsNotPosted()
    ensures var undisturbed := Run(START, [Confirming(Nowhere)]);
            var again := Run(START, [Confirming(AfterStore)] + [Confirming(Nowhere)]);
            && |undisturbed.books.txs| == 1 && B.Cash(undisturbed.books) == 60000
            && again.books.txs == [] && B.Cash(again.books) == 0
  {
    assert [] + [Confirming(Nowhere)] == [Confirming(Nowhere)] && [] + [Confirming(AfterStore)] == [Confirming(AfterStore)];
    RunOneMore(START, [], Confirming(Nowhere));
    RunOneMore(START, [], Confirming(AfterStore));
    RunOneMore(START, [Confirming(AfterStore)], Confirming(Nowhere));
    S.TheMemberSaves();
    S.SavedFunds();
    assert B.Settle(S.Recorded(), 0, true) == B.Settle(S.Recorded(), 0, false);
    StoredOnce();
  }

  lemma StoredOnce()
    ensures var crashed := Step(START, Confirming(AfterStore)).0;
            StoredEvent(crashed.events, 0, PaybillId(Confirming(Nowhere).note)) == Some(0) && crashed.books == START.books
  {
    var crashed := Step(START, Confirming(AfterStore)).0;
    assert crashed.events[..0] == [];
  }
}
