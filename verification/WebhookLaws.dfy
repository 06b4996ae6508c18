/**
 What a webhook delivery may do: exactly which callbacks are applied, what an applied one does, and how every other one
 is classified. A callback is applied only to an unresolved attempt of its own connection, only when it reports a final
 outcome, and only when the amount and the currency that it states are those of the intent.
 */
module WebhookLaws {
  import opened Wrappers
  import opened Ledger
  import opened Subledger
  import B = Books
  import opened Payments
  import P = PaymentProtocol

  // ----- which attempt --------------------------------------------------------------------------

  ghost predicate HasRequestId(intents: seq<Intent>, id: Option<nat>) {
    exists i, k :: 0 <= i < |intents| && 0 <= k < |intents[i].attempts| && intents[i].attempts[k].requestId == id
  }

  ghost predicate HasTransactionId(intents: seq<Intent>, id: Option<nat>) {
    exists i, k :: 0 <= i < |intents| && 0 <= k < |intents[i].attempts| && intents[i].attempts[k].transactionId == id
  }

  /** A callback is about the attempt with its request id; failing that, about the one with its transaction id. */
  lemma FoundAttemptIs(intents: seq<Intent>, cb: Callback)
    ensures var found := FindAttempt(intents, cb);
            var byRequest := cb.requestId.Some? && HasRequestId(intents, cb.requestId);
            && (found.Some? <==> byRequest || (cb.transactionId.Some? && HasTransactionId(intents, cb.transactionId)))
            && (found.Some? ==>
                  && found.value.intent < |intents| && found.value.attempt < |intents[found.value.intent].attempts|
                  && var a := intents[found.value.intent].attempts[found.value.attempt];
                     if byRequest then a.requestId == cb.requestId else a.transactionId == cb.transactionId)
  {
  }

  // ----- which deliveries are looked at ---------------------------------------------------------

  /** The event is new, identified and readable; or it is stored with this payload and was never finished. */
  predicate Live(w: World, connection: nat, cb: Callback) {
    match StoredEvent(w.events, connection, CallbackId(cb))
    case None => cb.eventId.Some? && cb.verdict.Some?
    case Some(e) => w.events[e].payload == FromProvider(cb) && w.events[e].status == Received
  }

  /** Where the delivered event is, or will be, in the inbox. */
  function Slot(w: World, connection: nat, cb: Callback): nat {
    var stored := StoredEvent(w.events, connection, CallbackId(cb));
    if stored.Some? then stored.value else |w.events|
  }

  /** The delivery is about this attempt, which was made on its connection. */
  predicate Concerns(w: World, connection: nat, cb: Callback, i: nat, k: nat) {
    && FindAttempt(w.intents, cb) == Some(Place(i, k))
    && i < |w.intents| && k < |w.intents[i].attempts|
    && w.intents[i].attempts[k].connection == connection
  }

  /** The amount and the currency that the callback states, if it states them, are those of the intent. */
  predicate SameMoney(ask: Ask, cb: Callback) {
    && (cb.amount.Some? ==> cb.amount.value == ask.amount)
    && (cb.currency.Some? ==> cb.currency.value == ask.currency)
  }

  predicate Decides(cb: Callback) {
    cb.verdict == Some(Paid) || cb.verdict == Some(Declined)
  }

  /** What a delivery leaves behind when it moves nothing: only its event, with this status. */
  ghost predicate OnlyFiled(w: World, next: World, e: nat, status: EventStatus) {
    && next.intents == w.intents && next.books == w.books
    && e < |next.events| && next.events[e].status == status
  }

  // ----- only these are applied -----------------------------------------------------------------

  lemma ProcessedOnly(w: World, e: nat, connection: nat, cb: Callback, point: CrashPoint)
    requires w.books.price > 0 && e < |w.events|
    ensures var next := ProcessCallback(w, e, connection, cb, point).0;
            next.intents != w.intents || next.books != w.books ==>
              && FindAttempt(w.intents, cb).Some?
              && var place := FindAttempt(w.intents, cb).value;
                 && Concerns(w, connection, cb, place.intent, place.attempt)
                 && Unresolved(w.intents[place.intent].attempts[place.attempt])
                 && Decides(cb) && SameMoney(w.intents[place.intent].ask, cb)
  {
  }

  /**
   Whatever is delivered, and wherever the delivery crashes: intents or books change only if the event is live and the
   attempt it is about is of this connection and unresolved, the outcome is final, and the stated money is the intent's.
   */
  lemma OnlyAgreeingCallbacksApply(w: World, connection: nat, cb: Callback, point: CrashPoint)
    requires w.books.price > 0
    ensures var next := Deliver(w, connection, cb, point).0;
            next.intents != w.intents || next.books != w.books ==>
              && Live(w, connection, cb) && FindAttempt(w.intents, cb).Some?
              && var place := FindAttempt(w.intents, cb).value;
                 && Concerns(w, connection, cb, place.intent, place.attempt)
                 && Unresolved(w.intents[place.intent].attempts[place.attempt])
                 && Decides(cb) && SameMoney(w.intents[place.intent].ask, cb)
  {
    var stored := w.(events := w.events + [Event(connection, CallbackId(cb), FromProvider(cb), Received)]);
    var found := StoredEvent(w.events, connection, CallbackId(cb));
    if found.Some? {
      ProcessedOnly(w, found.value, connection, cb, point);
    } else {
      ProcessedOnly(stored, |w.events|, connection, cb, point);
    }
  }

  // ----- and what they do -----------------------------------------------------------------------

  /** The world in which the delivered event is stored. */
  function Stored(w: World, connection: nat, cb: Callback): World {
    if StoredEvent(w.events, connection, CallbackId(cb)).Some? then w
    else w.(events := w.events + [Event(connection, CallbackId(cb), FromProvider(cb), Received)])
  }

  lemma LiveIsProcessed(w: World, connection: nat, cb: Callback)
    requires w.books.price > 0 && Live(w, connection, cb)
    ensures Slot(w, connection, cb) < |Stored(w, connection, cb).events|
    ensures Stored(w, connection, cb).events[Slot(w, connection, cb)].status == Received
    ensures Deliver(w, connection, cb, Nowhere)
            == ProcessCallback(Stored(w, connection, cb), Slot(w, connection, cb), connection, cb, Nowhere)
  {
  }

  lemma DeclinedIsProcessed(w: World, e: nat, connection: nat, cb: Callback, i: nat, k: nat)
    requires w.books.price > 0 && e < |w.events| && Concerns(w, connection, cb, i, k)
    requires Unresolved(w.intents[i].attempts[k]) && cb.verdict == Some(Declined) && SameMoney(w.intents[i].ask, cb)
    ensures var a := w.intents[i].attempts[k];
            var failed := w.intents[i].(attempts := w.intents[i].attempts[k := a.(status := Failed)]);
            ProcessCallback(w, e, connection, cb, Nowhere)
            == (Stamp(WithIntent(w, i, if a.number >= w.most then Closed(failed) else failed), e, Processed), EventIs(e))
  {
  }

  lemma PaidIsProcessed(w: World, e: nat, connection: nat, cb: Callback, i: nat, k: nat)
    requires w.books.price > 0 && e < |w.events| && Concerns(w, connection, cb, i, k)
    requires Unresolved(w.intents[i].attempts[k]) && cb.verdict == Some(Paid) && SameMoney(w.intents[i].ask, cb)
    ensures ProcessCallback(w, e, connection, cb, Nowhere)
            == match Collect(w, i, k, None, cb.transactionId)
               case None => (w, Raised)
               case Some(after) => (Stamp(after, e, Processed), EventIs(e))
  {
  }

  /** The attempt's own numbers: it is the last one, number k + 1 of a PROCESSING intent. */
  lemma UnresolvedShape(w: World, i: nat, k: nat)
    requires P.Protocol(w) && i < |w.intents| && k < |w.intents[i].attempts| && Unresolved(w.intents[i].attempts[k])
    ensures w.intents[i].status == Processing && w.intents[i].attempts[k].number == k + 1
  {
    P.ShapeOf(w, i);
    P.UnresolvedIsLast(w.most, w.intents[i], k);
  }

  /** A live callback that reports a failure: the attempt fails, the last allowed one takes the intent with it; no money moves. */
  lemma DeclinedIsApplied(w: World, connection: nat, cb: Callback, i: nat, k: nat)
    requires P.Protocol(w) && Live(w, connection, cb) && Concerns(w, connection, cb, i, k)
    requires Unresolved(w.intents[i].attempts[k]) && cb.verdict == Some(Declined) && SameMoney(w.intents[i].ask, cb)
    ensures var (next, answer) := Deliver(w, connection, cb, Nowhere);
            var (intent, e) := (w.intents[i], Slot(w, connection, cb));
            && answer == EventIs(e) && e < |next.events| && next.events[e].status == Processed
            && next.books == w.books
            && next.intents == w.intents[i := intent.(
                                           status := if k + 1 >= w.most then Lost else Processing,
                                           attempts := intent.attempts[k := intent.attempts[k].(status := Failed)])]
  {
    LiveIsProcessed(w, connection, cb);
    UnresolvedShape(w, i, k);
    DeclinedIsProcessed(Stored(w, connection, cb), Slot(w, connection, cb), connection, cb, i, k);
  }

  /** No other attempt's row has this transaction id. */
  ghost predicate TransactionIsFree(intents: seq<Intent>, i: nat, k: nat, id: Option<nat>) {
    id.Some? ==>
      forall j, n :: 0 <= j < |intents| && 0 <= n < |intents[j].attempts| && !(j == i && n == k) ==>
        intents[j].attempts[n].transactionId != id
  }

  /** The intent after its attempt k succeeded under this transaction id, if one is stated. */
  function Succeeding(intent: Intent, k: nat, transactionId: Option<nat>): Intent
    requires k < |intent.attempts|
  {
    var a := intent.attempts[k].(status := Succeeded);
    intent.(status := Collected,
            attempts := intent.attempts[k := if transactionId.Some? then a.(transactionId := transactionId) else a])
  }

  /** The books after the linked contribution, if any, is confirmed: one posting if it was PENDING, none if it was confirmed. */
  ghost predicate SettledFor(b: B.Books, after: B.Books, contribution: Option<nat>) {
    match contribution
    case None => after == b
    case Some(c) =>
      && c < |b.contributions|
      && if b.contributions[c].status != B.Pending then after == b
         else
           var row := b.contributions[c].(status := B.Confirmed);
           && after.contributions == b.contributions[c := row]
           && after.txs == b.txs + [PostingOf(b.chama, B.ContributionEntry(b.chama, c, row))]
  }

  lemma IdsAreFreeIff(w: World, i: nat, k: nat, transactionId: Option<nat>)
    requires P.IdsOk(w.intents) && i < |w.intents| && k < |w.intents[i].attempts|
    ensures var a := Ended(w.intents[i].attempts[k], Succeeded, None, transactionId);
            IdsTaken(w.intents, Place(i, k), a.rowRequestId, a.transactionId) <==> !TransactionIsFree(w.intents, i, k, transactionId)
  {
    var old_ := w.intents[i].attempts[k];
    assert !IdsTaken(w.intents, Place(i, k), old_.rowRequestId, old_.transactionId);
    var a := Ended(old_, Succeeded, None, transactionId);
    if !TransactionIsFree(w.intents, i, k, transactionId) {
      var j, n :| 0 <= j < |w.intents| && 0 <= n < |w.intents[j].attempts| && !(j == i && n == k)
        && w.intents[j].attempts[n].transactionId == transactionId;
      assert Place(j, n) != Place(i, k);
    }
  }

  /**
   Settlement goes through for an intent without a link, and for one whose contribution is its member's, not reversed
   and not a PENDING zero.
   */
  lemma SettledIff(b: B.Books, ask: Ask)
    requires b.price > 0
    ensures SettleLinked(b, ask).Some? <==>
            (ask.contribution.Some? ==>
               && ask.contribution.value < |b.contributions|
               && var row := b.contributions[ask.contribution.value];
                  row.member == ask.member && row.status != B.Reversed && (row.status == B.Pending ==> row.amount != 0))
  {
  }

  lemma LinkedIsSettled(w: World, i: nat)
    requires P.Protocol(w) && i < |w.intents|
    ensures var ask := w.intents[i].ask;
            && (SettleLinked(w.books, ask).None? <==>
                  ask.contribution.Some? && ask.contribution.value < |w.books.contributions|
                  && w.books.contributions[ask.contribution.value].status == B.Reversed)
            && (SettleLinked(w.books, ask).Some? ==> SettledFor(w.books, SettleLinked(w.books, ask).value, ask.contribution))
  {
    assert P.LinkOk(w.books.contributions, w.intents[i]);
  }

  /**
   A live callback that reports a payment. Unless another attempt has the transaction id, or the linked contribution was
   reversed, the attempt succeeds, the intent is collected and its contribution settled, all at once; else nothing
   happens and the event stays open.
   */
  lemma PaidIsApplied(w: World, connection: nat, cb: Callback, i: nat, k: nat)
    requires P.Protocol(w) && Live(w, connection, cb) && Concerns(w, connection, cb, i, k)
    requires Unresolved(w.intents[i].attempts[k]) && cb.verdict == Some(Paid) && SameMoney(w.intents[i].ask, cb)
    ensures var (next, answer) := Deliver(w, connection, cb, Nowhere);
            var (link, e) := (w.intents[i].ask.contribution, Slot(w, connection, cb));
            if TransactionIsFree(w.intents, i, k, cb.transactionId)
               && (link.Some? ==> link.value < |w.books.contributions| && w.books.contributions[link.value].status != B.Reversed)
            then
              && answer == EventIs(e) && e < |next.events| && next.events[e].status == Processed
              && next.intents == w.intents[i := Succeeding(w.intents[i], k, cb.transactionId)]
              && SettledFor(w.books, next.books, link)
            else
              answer == Raised && OnlyFiled(w, next, e, Received)
  {
    LiveIsProcessed(w, connection, cb);
    PaidIsProcessed(Stored(w, connection, cb), Slot(w, connection, cb), connection, cb, i, k);
    CollectedIff(w, Stored(w, connection, cb), i, k, cb.transactionId);
  }

  /** Collecting, in a world that differs at most in its events. */
  lemma CollectedIff(w: World, stored: World, i: nat, k: nat, transactionId: Option<nat>)
    requires P.Protocol(w) && stored == w.(events := stored.events)
    requires i < |w.intents| && k < |w.intents[i].attempts| && Unresolved(w.intents[i].attempts[k])
    ensures var link := w.intents[i].ask.contribution;
            var end := Collect(stored, i, k, None, transactionId);
            && (end.Some? <==>
                  TransactionIsFree(w.intents, i, k, transactionId)
                  && (link.Some? ==> link.value < |w.books.contributions| && w.books.contributions[link.value].status != B.Reversed))
            && (end.Some? ==>
                  && end.value.events == stored.events
                  && end.value.intents == w.intents[i := Succeeding(w.intents[i], k, transactionId)]
                  && SettledFor(w.books, end.value.books, link))
  {
    UnresolvedShape(w, i, k);
    LinkIsThere(w, i);
    IdsAreFreeIff(w, i, k, transactionId);
    LinkedIsSettled(w, i);
  }

  lemma LinkIsThere(w: World, i: nat)
    requires P.Protocol(w) && i < |w.intents|
    ensures w.intents[i].ask.contribution.Some? ==> w.intents[i].ask.contribution.value < |w.books.contributions|
  {
    assert P.LinkOk(w.books.contributions, w.intents[i]);
  }

  // ----- and how the others are filed -----------------------------------------------------------

  /** A stated amount or currency that is not the intent's ends the event as a disagreement, whatever else the callback says. */
  lemma OtherMoneyDisagrees(w: World, connection: nat, cb: Callback, i: nat, k: nat)
    requires w.books.price > 0 && Live(w, connection, cb) && Concerns(w, connection, cb, i, k)
    requires !SameMoney(w.intents[i].ask, cb)
    ensures OnlyFiled(w, Deliver(w, connection, cb, Nowhere).0, Slot(w, connection, cb), Disagreement)
  {
    LiveIsProcessed(w, connection, cb);
  }

  /** A callback about no attempt, or about one of another connection, cannot be processed. */
  lemma StrangersAreUnprocessable(w: World, connection: nat, cb: Callback)
    requires w.books.price > 0 && Live(w, connection, cb)
    requires forall i: nat, k: nat :: !Concerns(w, connection, cb, i, k)
    ensures OnlyFiled(w, Deliver(w, connection, cb, Nowhere).0, Slot(w, connection, cb), Unprocessable)
  {
    LiveIsProcessed(w, connection, cb);
    var found := FindAttempt(w.intents, cb);
    if found.Some? {
      assert !Concerns(w, connection, cb, found.value.intent, found.value.attempt);
    }
  }

  /** Neither can one that reports no final outcome. */
  lemma UndecidedIsUnprocessable(w: World, connection: nat, cb: Callback, i: nat, k: nat)
    requires w.books.price > 0 && Live(w, connection, cb) && Concerns(w, connection, cb, i, k)
    requires SameMoney(w.intents[i].ask, cb) && !Decides(cb)
    ensures OnlyFiled(w, Deliver(w, connection, cb, Nowhere).0, Slot(w, connection, cb), Unprocessable)
  {
    LiveIsProcessed(w, connection, cb);
  }

  /** About an attempt that is already final, the same outcome is filed as processed and the opposite one as a disagreement. */
  lemma FinalAttemptOnlyCompares(w: World, connection: nat, cb: Callback, i: nat, k: nat)
    requires w.books.price > 0 && Live(w, connection, cb) && Concerns(w, connection, cb, i, k)
    requires SameMoney(w.intents[i].ask, cb) && Decides(cb) && P.Final(w.intents[i].attempts[k].status)
    ensures var same := (cb.verdict == Some(Paid)) == (w.intents[i].attempts[k].status == Succeeded);
            OnlyFiled(w, Deliver(w, connection, cb, Nowhere).0, Slot(w, connection, cb), if same then Processed else Disagreement)
  {
    LiveIsProcessed(w, connection, cb);
  }

  /** A delivery that is not live only files its event: other payload, finished before, or unreadable. */
  lemma OthersAreFiled(w: World, connection: nat, cb: Callback, point: CrashPoint)
    requires w.books.price > 0 && !Live(w, connection, cb) && point != AfterStore
    ensures var stored := StoredEvent(w.events, connection, CallbackId(cb));
            OnlyFiled(w, Deliver(w, connection, cb, point).0, Slot(w, connection, cb),
                      if stored.None? then Unprocessable
                      else if w.events[stored.value].payload != FromProvider(cb) then Disagreement
                      else Deduplicated)
  {
  }
}
