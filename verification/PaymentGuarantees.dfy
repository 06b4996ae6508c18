/** What the payment protocol promises: one settlement per collected intent, resumable deliveries, and what can get stuck. */
module PaymentGuarantees {
  import opened Wrappers
  import opened Ledger
  import opened Subledger
  import B = Books
  import R = Runs
  import opened Reconciliation
  import G = Guarantees
  import opened Payments
  import P = PaymentProtocol
  import opened PaymentRuns
  import V = Solvency

  function Opened(chama: nat, price: int, most: nat): World {
    World(B.Opened(chama, price), [], [], most)
  }

  lemma OpenedIsSound(chama: nat, price: int, most: nat)
    requires price > 0 && most >= 1
    ensures Sound(Opened(chama, price, most))
  {
    Reconciliation.OpenedIsSound(chama, price, Account(chama, CASH));
  }

  // ----- attempts and intents -------------------------------------------------------------------

  /**
   In every state of every run the attempts of an intent are numbered 1 to n with n within the limit, every
   attempt but the last has failed, and the intent is collected exactly when its last attempt succeeded.
   */
  lemma EveryRunObeysTheProtocol(w: World, actions: seq<Action>, i: nat)
    requires Sound(w) && i < |Run(w, actions).intents|
    ensures P.IntentOk(w.most, Run(w, actions).intents[i])
  {
    EveryRunKeeps(w, actions);
    P.ShapeOf(Run(w, actions), i);
  }

  /** So at most one attempt ever succeeds, and a lost intent has none that did. */
  lemma AtMostOneAttemptSucceeds(most: nat, intent: Intent, k: nat)
    requires P.IntentOk(most, intent) && k < |intent.attempts|
    ensures intent.attempts[k].number == k + 1 <= most
    ensures intent.attempts[k].status == Succeeded <==> k == |intent.attempts| - 1 && intent.status == Collected
    ensures intent.status == Lost ==> intent.attempts[k].status == Failed
    ensures Unresolved(intent.attempts[k]) ==> k == |intent.attempts| - 1 && intent.status == Processing
  {
  }

  /** Final states never change, and while an attempt is unresolved no further one appears. */
  lemma NoNewAttemptWhileUnresolved(w: World, actions: seq<Action>, i: nat, k: nat)
    requires Sound(w) && i < |w.intents| && k < |w.intents[i].attempts|
    ensures var end := Run(w, actions);
            && i < |end.intents| && k < |end.intents[i].attempts|
            && (P.Final(w.intents[i].attempts[k].status) ==> end.intents[i].attempts[k] == w.intents[i].attempts[k])
            && (w.intents[i].status in {Collected, Lost} ==> end.intents[i] == w.intents[i])
            && (Unresolved(end.intents[i].attempts[k]) ==> |end.intents[i].attempts| == |w.intents[i].attempts|)
  {
    EveryRunKeeps(w, actions);
    assert P.IntentAdvances(w.intents[i], Run(w, actions).intents[i]);
  }

  /**
   Collecting a linked intent posts exactly when its contribution is still PENDING at that moment. A confirmed
   contribution leaves the books as they are although the provider was paid, and a reversed one refuses the success.
   */
  lemma CollectionPostsIff(w: World, i: nat, k: nat, requestId: Option<nat>, transactionId: Option<nat>)
    requires P.Protocol(w) && i < |w.intents| && k < |w.intents[i].attempts| && w.intents[i].ask.contribution.Some?
    ensures var c := w.intents[i].ask.contribution.value;
            var a := Ended(w.intents[i].attempts[k], Succeeded, requestId, transactionId);
            var end := Collect(w, i, k, requestId, transactionId);
            && c < |w.books.contributions|
            && (end.Some? <==> !IdsTaken(w.intents, Place(i, k), a.rowRequestId, a.transactionId)
                               && w.books.contributions[c].status != B.Reversed)
            && (end.Some? ==>
                  var after := end.value.books;
                  && (w.books.contributions[c].status == B.Confirmed <==> after == w.books)
                  && (w.books.contributions[c].status == B.Pending <==>
                        |after.contributions| == |w.books.contributions| &&
                        after.txs == w.books.txs + [PostingOf(w.books.chama, B.ContributionEntry(w.books.chama, c, after.contributions[c]))]))
  {
    var c := w.intents[i].ask.contribution.value;
    assert P.LinkOk(w.books.contributions, w.intents[i]);
  }

  /**
   The contribution of a succeeded attempt has its money in the ledger exactly once: one confirmation posting of
   the intent's amount and one share, however many intents that link it were collected.
   */
  lemma SucceededAttemptIsSettledOnce(w: World, i: nat, k: nat)
    requires Sound(w) && i < |w.intents| && k < |w.intents[i].attempts|
    requires w.intents[i].attempts[k].status == Succeeded && w.intents[i].ask.contribution.Some?
    ensures var c := w.intents[i].ask.contribution.value;
            var source := Source(ContributionConfirmation, c);
            && w.intents[i].status == Collected
            && c < |w.books.contributions|
            && G.PostedOnce(w.books.txs, source)
            && w.books.txs[Find(w.books.txs, source).value].lines
               == [B.Debit(w.books.chama, CASH, w.intents[i].ask.amount), B.Credit(w.books.chama, SHARE_CAPITAL, w.intents[i].ask.amount)]
            && (exists s :: 0 <= s < |w.books.shares| && w.books.shares[s].contribution == c)
            && forall s, t :: 0 <= s < |w.books.shares| && 0 <= t < |w.books.shares| ==>
                 w.books.shares[s].contribution == c && w.books.shares[t].contribution == c ==> s == t
  {
    var c := w.intents[i].ask.contribution.value;
    SettledLink(w, i, k);
    G.SettledOnce(w.books, c);
    PostedRow(w.books, c);
  }

  lemma SettledLink(w: World, i: nat, k: nat)
    requires P.Protocol(w) && i < |w.intents| && k < |w.intents[i].attempts|
    requires w.intents[i].attempts[k].status == Succeeded && w.intents[i].ask.contribution.Some?
    ensures var c := w.intents[i].ask.contribution.value;
            && w.intents[i].status == Collected && c < |w.books.contributions|
            && w.books.contributions[c].amount == w.intents[i].ask.amount && w.books.contributions[c].status != B.Pending
  {
  }

  lemma PostedRow(b: B.Books, c: nat)
    requires PostingsOk(b) && c < |b.contributions| && Find(b.txs, Source(ContributionConfirmation, c)).Some?
    ensures b.txs[Find(b.txs, Source(ContributionConfirmation, c)).value] == PostingOf(b.chama, B.ContributionEntry(b.chama, c, b.contributions[c]))
  {
  }

  /** Whatever the payments do, the books of a run reconcile except for the reversals in flight. */
  lemma PaymentRunsReconcile(w: World, actions: seq<Action>, code: nat)
    requires Sound(w) && Reconciled(w.books, Account(w.books.chama, code))
    ensures var b := Run(w, actions).books;
            && b.chama == w.books.chama
            && Balance(b.txs, Account(b.chama, code)) + R.InTransit(b, code) == R.Expected(b, code)
            && (R.Settled(w.books) && AllClean(actions) ==> Balance(b.txs, Account(b.chama, code)) == R.Expected(b, code))
  {
    EveryRunKeepsBooks(w, actions, Account(w.books.chama, code));
    BooksReconcile(w.books, Run(w, actions).books, AllClean(actions), code);
  }

  /** Nor do payments ever overdraw cash: it covers everything but what was taken back of the money that came in. */
  lemma PaymentRunsAreSolvent(w: World, actions: seq<Action>)
    requires Inv(w.books) && V.Solvent(w.books)
    ensures V.Solvent(Run(w, actions).books)
  {
    EveryRunKeepsBooks(w, actions, Account(w.books.chama, CASH));
  }

  lemma BooksReconcile(b: B.Books, after: B.Books, clean: bool, code: nat)
    requires Reconciled(b, Account(b.chama, code)) && BooksKeep(b, after, clean, Account(b.chama, code))
    ensures Balance(after.txs, Account(b.chama, code)) + R.InTransit(after, code) == R.Expected(after, code)
    ensures clean && R.Settled(b) ==> Balance(after.txs, Account(b.chama, code)) == R.Expected(after, code)
  {
    R.SoundBooksReconcile(after, code);
    if clean && R.Settled(b) {
      R.SettledBooksBalance(after, code);
    }
  }

  /** Asking again with the same key finds the intent exactly while its contribution, if any, is still PENDING. */
  lemma RetryOfCreateFindsTheIntentIff(w: World, ask: Ask, i: nat)
    requires P.Protocol(w) && FindKey(w.intents, ask.key) == Some(i)
    ensures Create(w, ask) == (w, IntentIs(i)) <==>
              && w.intents[i].ask == ask
              && (ask.contribution.Some? ==>
                    ask.contribution.value < |w.books.contributions| && w.books.contributions[ask.contribution.value].status == B.Pending)
  {
  }

  // ----- the inbox ------------------------------------------------------------------------------

  /** A delivery whose event is already finished moves neither money nor payments: it is only classified. */
  lemma FinishedEventIsNeverApplied(w: World, connection: nat, cb: Callback, point: CrashPoint, e: nat)
    requires w.books.price > 0 && StoredEvent(w.events, connection, CallbackId(cb)) == Some(e)
    requires w.events[e].status != Received
    ensures var (next, answer) := Deliver(w, connection, cb, point);
            && next.books == w.books && next.intents == w.intents && answer == EventIs(e)
            && next == Stamp(w, e, if w.events[e].payload == FromProvider(cb) then Deduplicated else Disagreement)
  {
  }

  /** Once an event has left RECEIVED it stays finished, so in no later state is its callback applied. */
  lemma FinishedEventStaysFinished(w: World, actions: seq<Action>, connection: nat, cb: Callback, point: CrashPoint)
    requires Sound(w) && StoredEvent(w.events, connection, CallbackId(cb)).Some?
    requires w.events[StoredEvent(w.events, connection, CallbackId(cb)).value].status != Received
    ensures var end := Run(w, actions);
            var next := Step(end, DoDeliver(connection, cb, point)).0;
            next.books == end.books && next.intents == end.intents
  {
    EventsOfRun(w, actions);
    StoredEventStays(w, Run(w, actions), connection, CallbackId(cb));
    FinishedEventIsNeverApplied(Run(w, actions), connection, cb, point, StoredEvent(w.events, connection, CallbackId(cb)).value);
  }

  lemma EventsOfRun(w: World, actions: seq<Action>)
    requires Sound(w)
    ensures P.EventsOk(w.events) && P.EventsOk(Run(w, actions).events)
    ensures P.EventsAdvance(w.events, Run(w, actions).events)
  {
    EveryRunKeeps(w, actions);
  }

  lemma StoredEventStays(w: World, end: World, connection: nat, id: Option<EventId>)
    requires P.EventsOk(w.events) && P.EventsOk(end.events) && P.EventsAdvance(w.events, end.events)
    requires StoredEvent(w.events, connection, id).Some?
    ensures StoredEvent(end.events, connection, id) == StoredEvent(w.events, connection, id)
  {
  }

  lemma FindEventAfterAppend(events: seq<Event>, x: Event, connection: nat, id: EventId)
    requires FindEvent(events, connection, id).None? && x.connection == connection && x.id == Some(id)
    ensures FindEvent(events + [x], connection, id) == Some(|events|)
  {
  }

  lemma {:induction false} SameAttempt(
      attempts: seq<Attempt>, later: seq<Attempt>, requestId: Option<nat>, transactionId: Option<nat>)
    requires |later| == |attempts|
    requires forall k :: 0 <= k < |attempts| ==> Carries(later[k], requestId, transactionId) == Carries(attempts[k], requestId, transactionId)
    ensures AttemptWith(later, requestId, transactionId) == AttemptWith(attempts, requestId, transactionId)
  {
    if attempts != [] {
      SameAttempt(attempts[..|attempts| - 1], later[..|later| - 1], requestId, transactionId);
    }
  }

  lemma {:induction false} SamePlace(
      intents: seq<Intent>, later: seq<Intent>, requestId: Option<nat>, transactionId: Option<nat>)
    requires |later| == |intents|
    requires forall i :: 0 <= i < |intents| ==> |later[i].attempts| == |intents[i].attempts|
    requires forall i, k :: 0 <= i < |intents| && 0 <= k < |intents[i].attempts| ==>
               Carries(later[i].attempts[k], requestId, transactionId) == Carries(intents[i].attempts[k], requestId, transactionId)
    ensures PlaceWith(later, requestId, transactionId) == PlaceWith(intents, requestId, transactionId)
  {
    if intents != [] {
      var n := |intents| - 1;
      SamePlace(intents[..n], later[..n], requestId, transactionId);
      SameAttempt(intents[n].attempts, later[n].attempts, requestId, transactionId);
    }
  }

  /** Collecting an attempt keeps the ids that a callback looks for. */
  lemma CollectedIsFoundAgain(w: World, cb: Callback)
    requires w.books.price > 0 && FindAttempt(w.intents, cb).Some?
    requires var place := FindAttempt(w.intents, cb).value; Collect(w, place.intent, place.attempt, None, cb.transactionId).Some?
    ensures var place := FindAttempt(w.intents, cb).value;
            FindAttempt(Collect(w, place.intent, place.attempt, None, cb.transactionId).value.intents, cb) == Some(place)
  {
    var place := FindAttempt(w.intents, cb).value;
    var later := Collect(w, place.intent, place.attempt, None, cb.transactionId).value.intents;
    SamePlace(w.intents, later, cb.requestId, None);
    if PlaceWith(w.intents, cb.requestId, None).None? {
      SamePlace(w.intents, later, None, cb.transactionId);
    }
  }

  lemma CrashInSettlementResumes(w: World, e: nat, connection: nat, cb: Callback)
    requires w.books.price > 0 && e < |w.events| && ProcessCallback(w, e, connection, cb, AfterPosting).1 == Crashed
    ensures var crashed := ProcessCallback(w, e, connection, cb, AfterPosting).0;
            && crashed.events == w.events
            && ProcessCallback(crashed, e, connection, cb, Nowhere) == ProcessCallback(w, e, connection, cb, Nowhere)
  {
    CollectedIsFoundAgain(w, cb);
  }

  /** One crash, wherever it falls, and a redelivery together do what an undisturbed delivery does. */
  lemma OneCrashConverges(w: World, connection: nat, cb: Callback, point: CrashPoint)
    requires w.books.price > 0 && cb.eventId.Some? && cb.verdict.Some? && Deliver(w, connection, cb, point).1 == Crashed
    ensures Deliver(Deliver(w, connection, cb, point).0, connection, cb, Nowhere) == Deliver(w, connection, cb, Nowhere)
  {
    var found := StoredEvent(w.events, connection, CallbackId(cb));
    var stored := w.(events := w.events + [Event(connection, CallbackId(cb), FromProvider(cb), Received)]);
    if found.None? {
      FindEventAfterAppend(w.events, Event(connection, CallbackId(cb), FromProvider(cb), Received), connection, CallbackId(cb).value);
      if point == AfterPosting {
        CrashInSettlementResumes(stored, |w.events|, connection, cb);
      }
    } else if point == AfterPosting {
      CrashInSettlementResumes(w, found.value, connection, cb);
    }
  }

  /** Deliveries of one callback that all crash. */
  function CrashedDeliveries(w: World, connection: nat, cb: Callback, points: seq<CrashPoint>): (end: World)
    requires w.books.price > 0
    ensures end.books.price > 0
  {
    if points == [] then w
    else Deliver(CrashedDeliveries(w, connection, cb, points[..|points| - 1]), connection, cb, points[|points| - 1]).0
  }

  predicate AllCrash(w: World, connection: nat, cb: Callback, points: seq<CrashPoint>)
    requires w.books.price > 0
  {
    points == [] ||
    (var n := |points| - 1;
     AllCrash(w, connection, cb, points[..n])
     && Deliver(CrashedDeliveries(w, connection, cb, points[..n]), connection, cb, points[n]).1 == Crashed)
  }

  /** However many deliveries crashed, after the store or after the posting, the next one ends as if none had. */
  lemma {:induction false} CrashedDeliveriesConverge(w: World, connection: nat, cb: Callback, points: seq<CrashPoint>)
    requires w.books.price > 0 && cb.eventId.Some? && cb.verdict.Some?
    ensures AllCrash(w, connection, cb, points) ==>
              Deliver(CrashedDeliveries(w, connection, cb, points), connection, cb, Nowhere) == Deliver(w, connection, cb, Nowhere)
  {
    if points != [] && AllCrash(w, connection, cb, points) {
      var n := |points| - 1;
      CrashedDeliveriesConverge(w, connection, cb, points[..n]);
      OneCrashConverges(CrashedDeliveries(w, connection, cb, points[..n]), connection, cb, points[n]);
    }
  }

  lemma ProcessingKeepsIds(w: World, e: nat, connection: nat, cb: Callback, point: CrashPoint)
    requires w.books.price > 0 && e < |w.events|
    ensures var next := ProcessCallback(w, e, connection, cb, point).0;
            |next.events| == |w.events| && next.events[e].connection == w.events[e].connection && next.events[e].id == w.events[e].id
  {
  }

  lemma DeliveryIsStored(w: World, connection: nat, cb: Callback, point: CrashPoint)
    requires w.books.price > 0 && cb.eventId.Some?
    ensures StoredEvent(Deliver(w, connection, cb, point).0.events, connection, CallbackId(cb)).Some?
  {
    var next := Deliver(w, connection, cb, point).0;
    var found := StoredEvent(w.events, connection, CallbackId(cb));
    var e := if found.Some? then found.value else |w.events|;
    if found.Some? {
      ProcessingKeepsIds(w, e, connection, cb, point);
    } else {
      var stored := w.(events := w.events + [Event(connection, CallbackId(cb), FromProvider(cb), Received)]);
      ProcessingKeepsIds(stored, e, connection, cb, point);
    }
    assert next.events[e].connection == connection && next.events[e].id == CallbackId(cb);
  }

  /** What an uncrashed delivery of a stored event makes of it. */
  ghost predicate Finishes(w: World, connection: nat, cb: Callback, e: nat)
    requires w.books.price > 0 && e < |w.events|
  {
    var (next, answer) := Deliver(w, connection, cb, Nowhere);
    var found := FindAttempt(w.intents, cb);
    && |next.events| == |w.events| && |next.intents| == |w.intents|
    && (answer == Raised ==> next == w && found.Some? && Collect(w, found.value.intent, found.value.attempt, None, cb.transactionId).None?)
    && (answer != Raised ==> answer == EventIs(e) && next.events[e].status != Received)
    && (next.events[e].status == Processed && answer != Raised ==>
          found.Some? && cb.verdict in {Some(Paid), Some(Declined)} &&
          |next.intents[found.value.intent].attempts| == |w.intents[found.value.intent].attempts| &&
          next.intents[found.value.intent].attempts[found.value.attempt].status
          == if cb.verdict == Some(Paid) then Succeeded else Failed)
  }

  lemma StoredEventFinishes(w: World, connection: nat, cb: Callback, e: nat)
    requires w.books.price > 0 && StoredEvent(w.events, connection, CallbackId(cb)) == Some(e)
    ensures Finishes(w, connection, cb, e)
  {
  }

  /**
   After a delivery, crashed or not, and whatever happened since, one more delivery finishes the event: it leaves
   RECEIVED, and PROCESSED means that the attempt has the status the callback reports. It can only fail to when the
   success cannot be recorded; then nothing changes and a later delivery tries again.
   */
  lemma RedeliveryFinishesTheEvent(w: World, connection: nat, cb: Callback, point: CrashPoint, between: seq<Action>)
    requires Sound(w) && cb.eventId.Some?
    ensures var end := Run(Step(w, DoDeliver(connection, cb, point)).0, between);
            var stored := StoredEvent(end.events, connection, CallbackId(cb));
            stored.Some? && Finishes(end, connection, cb, stored.value)
  {
    var mid := Step(w, DoDeliver(connection, cb, point)).0;
    StepKeeps(w, DoDeliver(connection, cb, point));
    DeliveryIsStored(w, connection, cb, point);
    EventsOfRun(mid, between);
    StoredEventStays(mid, Run(mid, between), connection, CallbackId(cb));
    StoredEventFinishes(Run(mid, between), connection, cb, StoredEvent(mid.events, connection, CallbackId(cb)).value);
  }

  // ----- what can get stuck ---------------------------------------------------------------------

  /** No attempt, or a last one that nobody can ask about: it has no id of the provider. */
  predicate Stuck(intent: Intent) {
    && intent.status == Processing
    && (intent.attempts == [] ||
        (var last := intent.attempts[|intent.attempts| - 1];
         Unresolved(last) && last.requestId.None? && last.transactionId.None?))
  }

  /** A crash after the first commit of an initiation leaves such an intent, and so does a provider timeout. */
  lemma StuckArises(w: World, i: nat, connection: nat, query: Query, reply: Reply)
    requires P.Protocol(w) && i < |w.intents| && w.intents[i].status == Pending
    ensures Stuck(Initiate(w, i, connection, true, query, reply, true).0.intents[i])
    ensures Stuck(Initiate(w, i, connection, true, query, NoReply, false).0.intents[i])
  {
  }

  lemma StuckStays(w: World, i: nat, a: Action)
    requires B.Usable(w.books) && i < |w.intents| && Stuck(w.intents[i]) && P.IntentOk(w.most, w.intents[i])
    ensures i < |Step(w, a).0.intents| && Step(w, a).0.intents[i] == w.intents[i]
  {
    match a {
      case DoInitiate(j, connection, admitted, query, reply, crash) => StuckIsNotInitiated(w, i, j, connection, admitted, query, reply, crash);
      case DoDeliver(connection, cb, point) => StuckIsNotDelivered(w, i, connection, cb, point);
      case _ =>
    }
  }

  lemma StuckIsNotInitiated(
      w: World, i: nat, j: nat, connection: nat, admitted: bool, query: Query, reply: Reply, crash: bool)
    requires w.books.price > 0 && i < |w.intents| && Stuck(w.intents[i])
    ensures var next := Initiate(w, j, connection, admitted, query, reply, crash).0;
            |next.intents| == |w.intents| && next.intents[i] == w.intents[i]
  {
  }

  lemma CallbackTouchesOnlyTheFound(w: World, e: nat, connection: nat, cb: Callback, point: CrashPoint)
    requires w.books.price > 0 && e < |w.events|
    ensures var next := ProcessCallback(w, e, connection, cb, point).0;
            && |next.intents| == |w.intents|
            && (next.intents != w.intents ==>
                  && FindAttempt(w.intents, cb).Some?
                  && var place := FindAttempt(w.intents, cb).value;
                     && Unresolved(w.intents[place.intent].attempts[place.attempt])
                     && next.intents == w.intents[place.intent := next.intents[place.intent]])
  {
  }

  /** A delivery changes at most the intent of the unresolved attempt it found. */
  lemma DeliveryTouchesOnlyTheFound(w: World, connection: nat, cb: Callback, point: CrashPoint)
    requires w.books.price > 0
    ensures var next := Deliver(w, connection, cb, point).0;
            && |next.intents| == |w.intents|
            && (next.intents != w.intents ==>
                  && FindAttempt(w.intents, cb).Some?
                  && var place := FindAttempt(w.intents, cb).value;
                     && Unresolved(w.intents[place.intent].attempts[place.attempt])
                     && next.intents == w.intents[place.intent := next.intents[place.intent]])
  {
    var stored := w.(events := w.events + [Event(connection, CallbackId(cb), FromProvider(cb), Received)]);
    var found := StoredEvent(w.events, connection, CallbackId(cb));
    if found.Some? {
      CallbackTouchesOnlyTheFound(w, found.value, connection, cb, point);
    } else {
      CallbackTouchesOnlyTheFound(stored, |w.events|, connection, cb, point);
    }
  }

  lemma StuckIsNotDelivered(w: World, i: nat, connection: nat, cb: Callback, point: CrashPoint)
    requires w.books.price > 0 && i < |w.intents| && Stuck(w.intents[i]) && P.IntentOk(w.most, w.intents[i])
    ensures var next := Deliver(w, connection, cb, point).0;
            |next.intents| == |w.intents| && next.intents[i] == w.intents[i]
  {
    DeliveryTouchesOnlyTheFound(w, connection, cb, point);
    var next := Deliver(w, connection, cb, point).0;
    if next.intents != w.intents && FindAttempt(w.intents, cb).value.intent == i {
      P.UnresolvedIsLast(w.most, w.intents[i], FindAttempt(w.intents, cb).value.attempt);
    }
  }

  /** Nothing ever moves a stuck intent again. */
  lemma {:induction false} StuckForever(w: World, i: nat, actions: seq<Action>)
    requires Sound(w) && i < |w.intents| && Stuck(w.intents[i])
    ensures i < |Run(w, actions).intents| && Run(w, actions).intents[i] == w.intents[i]
  {
    if actions != [] {
      var before := Run(w, actions[..|actions| - 1]);
      EveryRunKeeps(w, actions[..|actions| - 1]);
      StuckForever(w, i, actions[..|actions| - 1]);
      P.ShapeOf(before, i);
      StuckStays(before, i, actions[|actions| - 1]);
    }
  }

  lemma {:induction false} FreshEventId(events: seq<Event>) returns (id: nat)
    ensures forall e :: 0 <= e < |events| && events[e].id.Some? && events[e].id.value.CallbackEvent? ==> events[e].id.value.id < id
  {
    if events == [] {
      id := 0;
    } else {
      var last := events[|events| - 1];
      id := FreshEventId(events[..|events| - 1]);
      if last.id.Some? && last.id.value.CallbackEvent? && last.id.value.id >= id {
        id := last.id.value.id + 1;
      }
    }
  }

  /** A PROCESSING intent can still be moved by some request if and only if it is not stuck. */
  lemma ProcessingIntentMovesIff(w: World, i: nat)
    requires Sound(w) && i < |w.intents| && w.intents[i].status == Processing
    ensures (exists a: Action :: i < |Step(w, a).0.intents| && Step(w, a).0.intents[i] != w.intents[i]) <==> !Stuck(w.intents[i])
  {
    P.ShapeOf(w, i);
    if Stuck(w.intents[i]) {
      forall a: Action ensures i < |Step(w, a).0.intents| && Step(w, a).0.intents[i] == w.intents[i] {
        StuckStays(w, i, a);
      }
    } else {
      var a := MovingAction(w, i);
    }
  }

  lemma MovingAction(w: World, i: nat) returns (a: Action)
    requires P.Protocol(w) && B.Usable(w.books) && i < |w.intents| && w.intents[i].status == Processing
    requires !Stuck(w.intents[i])
    ensures i < |Step(w, a).0.intents| && Step(w, a).0.intents[i] != w.intents[i]
  {
    var k := |w.intents[i].attempts| - 1;
    var last := w.intents[i].attempts[k];
    P.ShapeOf(w, i);
    if !Unresolved(last) {
      a := DoInitiate(i, last.connection, true, NoAnswer, Refused(false), false);
      FailedMoves(w, i, last.connection);
    } else if last.requestId.Some? {
      a := DoInitiate(i, last.connection, true, FoundFailed(true, None, None), NoReply, true);
      QueryMoves(w, i, last.connection);
    } else {
      a := CallbackMoves(w, i);
    }
  }

  lemma FailedMoves(w: World, i: nat, connection: nat)
    requires w.books.price > 0 && i < |w.intents| && w.intents[i].status == Processing && w.intents[i].attempts != []
    requires w.intents[i].attempts[|w.intents[i].attempts| - 1].status == Failed
    ensures var next := Initiate(w, i, connection, true, NoAnswer, Refused(false), false).0;
            |next.intents| == |w.intents| && next.intents[i].status == Lost
  {
  }

  lemma QueryMoves(w: World, i: nat, connection: nat)
    requires w.books.price > 0 && P.IdsOk(w.intents) && i < |w.intents| && w.intents[i].status == Processing
    requires w.intents[i].attempts != []
    requires var last := w.intents[i].attempts[|w.intents[i].attempts| - 1]; Unresolved(last) && last.requestId.Some?
    ensures var k := |w.intents[i].attempts| - 1;
            var next := Initiate(w, i, connection, true, FoundFailed(true, None, None), NoReply, true).0;
            |next.intents| == |w.intents| && k < |next.intents[i].attempts| && next.intents[i].attempts[k].status == Failed
  {
  }

  lemma CallbackMoves(w: World, i: nat) returns (a: Action)
    requires B.Usable(w.books) && P.IdsOk(w.intents) && i < |w.intents| && w.intents[i].attempts != []
    requires var last := w.intents[i].attempts[|w.intents[i].attempts| - 1]; Unresolved(last) && last.transactionId.Some?
    ensures i < |Step(w, a).0.intents| && Step(w, a).0.intents[i] != w.intents[i]
  {
    var k := |w.intents[i].attempts| - 1;
    var last := w.intents[i].attempts[k];
    var id := FreshEventId(w.events);
    var cb := Callback(Some(id), None, last.transactionId, Some(Declined), None, None, 0);
    a := DoDeliver(last.connection, cb, Nowhere);
    FoundByTransaction(w.intents, i, cb);
    CallbackReaches(w, i, k, cb);
  }

  lemma CallbackReaches(w: World, i: nat, k: nat, cb: Callback)
    requires w.books.price > 0 && FindAttempt(w.intents, cb) == Some(Place(i, k))
    requires Unresolved(w.intents[i].attempts[k])
    requires cb.verdict == Some(Declined) && cb.amount.None? && cb.currency.None? && cb.eventId.Some?
    requires StoredEvent(w.events, w.intents[i].attempts[k].connection, CallbackId(cb)).None?
    ensures var next := Deliver(w, w.intents[i].attempts[k].connection, cb, Nowhere).0;
            |next.intents| == |w.intents| && k < |next.intents[i].attempts| && next.intents[i].attempts[k].status == Failed
  {
  }

  /** The last attempt of an intent is the only one with its transaction id. */
  lemma FoundByTransaction(intents: seq<Intent>, i: nat, cb: Callback)
    requires P.IdsOk(intents) && i < |intents| && intents[i].attempts != [] && cb.requestId.None?
    requires cb.transactionId.Some? && intents[i].attempts[|intents[i].attempts| - 1].transactionId == cb.transactionId
    ensures FindAttempt(intents, cb) == Some(Place(i, |intents[i].attempts| - 1))
  {
  }

  // ----- Paybill --------------------------------------------------------------------------------

  /** In every state of every run a member has at most one contribution per period that is not reversed. */
  lemma OneOpenContributionPerPeriod(w: World, actions: seq<Action>, c: nat, d: nat)
    requires Sound(w) && c < |Run(w, actions).books.contributions| && d < |Run(w, actions).books.contributions|
    requires var rows := Run(w, actions).books.contributions;
             && rows[c].status != B.Reversed && rows[d].status != B.Reversed
             && rows[c].member == rows[d].member && rows[c].period == rows[d].period
    ensures c == d
  {
    EveryRunKeeps(w, actions);
    OneOpenMeans(Run(w, actions).books.contributions, c, d);
  }

  lemma OneOpenMeans(rows: seq<B.Contribution>, c: nat, d: nat)
    requires OneOpenPerPeriod(rows) && c < |rows| && d < |rows| && rows[c].status != B.Reversed
    requires rows[d].status != B.Reversed
    requires rows[c].member == rows[d].member && rows[c].period == rows[d].period
    ensures c == d
  {
  }

  /** What a confirmation does to the books: nothing, or one posting of its own amount for its own member and period. */
  lemma ConfirmationPostsItsAmount(b: B.Books, note: Paybill, member: Option<nat>, period: int, lostRace: bool)
    requires b.price > 0
    ensures var (after, status) := SettleConfirmation(b, note, member, period, lostRace);
            && (status != Processed ==> after == b)
            && (after != b ==>
                  exists c :: 0 <= c < |after.contributions|
                    && after.txs == b.txs + [PostingOf(b.chama, B.ContributionEntry(b.chama, c, after.contributions[c]))]
                    && member.Some? && note.amount == Some(after.contributions[c].amount)
                    && after.contributions[c] == B.Contribution(member.value, note.amount.value, period, B.Confirmed))
  {
    var (after, status) := SettleConfirmation(b, note, member, period, lostRace);
    if after != b {
      var open := FindOpen(b.contributions, member.value, period);
      var c := if open.Some? then open.value else |b.contributions|;
      assert after.contributions[c] == B.Contribution(member.value, note.amount.value, period, B.Confirmed);
      assert after.txs == b.txs + [PostingOf(b.chama, B.ContributionEntry(b.chama, c, after.contributions[c]))];
    }
  }

  /** PROCESSED without a posting means exactly that the period was already confirmed with the same amount. */
  lemma ProcessedWithoutPostingIff(b: B.Books, note: Paybill, member: Option<nat>, period: int, lostRace: bool)
    requires b.price > 0
    ensures SettleConfirmation(b, note, member, period, lostRace) == (b, Processed) <==>
              && note.number.Some? && member.Some? && note.amount.Some? && note.amount.value > 0
              && var open := FindOpen(b.contributions, member.value, period);
                 open.Some? && b.contributions[open.value].status == B.Confirmed && b.contributions[open.value].amount == note.amount.value
  {
  }

  /** However the request ends, the books are as before or as settlement leaves them; intents are never touched. */
  lemma ConfirmationTouchesOnlyTheBooks(
      w: World, connection: nat, fits: bool, note: Paybill, member: Option<nat>, period: int, lostRace: bool, point: CrashPoint)
    requires w.books.price > 0
    ensures var (next, answer) := ConfirmPaybill(w, connection, fits, note, member, period, lostRace, point);
            && next.intents == w.intents
            && next.books in {w.books, SettleConfirmation(w.books, note, member, period, lostRace).0}
            && (StoredEvent(w.events, connection, PaybillId(note)).Some? ==> next.books == w.books)
            && (answer.EventIs? ==> answer.event < |next.events| && (next.events[answer.event].status != Processed ==> next.books == w.books))
  {
  }

  lemma ConfirmationIsStored(
      w: World, connection: nat, fits: bool, note: Paybill, member: Option<nat>, period: int, lostRace: bool, point: CrashPoint)
    requires w.books.price > 0 && PaybillId(note).Some?
    ensures StoredEvent(ConfirmPaybill(w, connection, fits, note, member, period, lostRace, point).0.events, connection, PaybillId(note)).Some?
  {
    var next := ConfirmPaybill(w, connection, fits, note, member, period, lostRace, point).0;
    var found := StoredEvent(w.events, connection, PaybillId(note));
    var e := if found.Some? then found.value else |w.events|;
    assert next.events[e].connection == connection && next.events[e].id == PaybillId(note);
  }

  /**
   At most one settlement per connection and TransID: after any confirmation of it, even one that crashed
   before settling, and whatever happens in between, a further one leaves the books as they are.
   */
  lemma PaybillSettlesAtMostOnce(w: World, first: Action, between: seq<Action>, second: Action)
    requires Sound(w) && first.DoConfirm? && second.DoConfirm? && first.connection == second.connection
    requires PaybillId(first.note).Some? && PaybillId(second.note) == PaybillId(first.note)
    ensures var end := Run(Step(w, first).0, between);
            Step(end, second).0.books == end.books
  {
    var mid := Step(w, first).0;
    StepKeeps(w, first);
    ConfirmationIsStored(w, first.connection, first.fits, first.note, first.member, first.period, first.lostRace, first.point);
    EventsOfRun(mid, between);
    StoredEventStays(mid, Run(mid, between), first.connection, PaybillId(first.note));
  }

  /** The confirmation settles nothing: it names no member or amount, or its period takes no further contribution. */
  predicate SettlesNothing(b: B.Books, note: Paybill, member: Option<nat>, period: int, lostRace: bool) {
    || note.amount.None? || note.amount.value <= 0 || note.number.None? || member.None?
    || match FindOpen(b.contributions, member.value, period)
       case None => lostRace
       case Some(c) => b.contributions[c].status == B.Confirmed || b.contributions[c].amount != note.amount.value
  }

  lemma SettlesNothingIff(b: B.Books, note: Paybill, member: Option<nat>, period: int, lostRace: bool)
    requires b.price > 0
    ensures SettleConfirmation(b, note, member, period, lostRace).0 == b <==> SettlesNothing(b, note, member, period, lostRace)
  {
  }

  /** The books with one more confirmed contribution of this member, period and amount: the open one, or a new row. */
  ghost predicate Credited(b: B.Books, after: B.Books, member: nat, amount: int, period: int) {
    var row := B.Contribution(member, amount, period, B.Confirmed);
    exists c ::
      && 0 <= c < |after.contributions|
      && after.txs == b.txs + [PostingOf(b.chama, B.ContributionEntry(b.chama, c, row))]
      && ((c == |b.contributions| && after.contributions == b.contributions + [row])
          || (c < |b.contributions| && b.contributions[c] == row.(status := B.Pending)
              && after.contributions == b.contributions[c := row]))
  }

  lemma SettledOrNot(b: B.Books, note: Paybill, member: Option<nat>, period: int, lostRace: bool)
    requires b.price > 0
    ensures var (after, status) := SettleConfirmation(b, note, member, period, lostRace);
            if SettlesNothing(b, note, member, period, lostRace)
            then after == b && (status == Processed || status == Disagreement)
            else status == Processed && Credited(b, after, member.value, note.amount.value, period)
  {
    var after := SettleConfirmation(b, note, member, period, lostRace).0;
    if !SettlesNothing(b, note, member, period, lostRace) {
      var open := FindOpen(b.contributions, member.value, period);
      var c := if open.Some? then open.value else |b.contributions|;
      var row := B.Contribution(member.value, note.amount.value, period, B.Confirmed);
      assert after.txs == b.txs + [PostingOf(b.chama, B.ContributionEntry(b.chama, c, row))];
      assert open.None? ==> (b.contributions + [row.(status := B.Pending)])[c := row] == b.contributions + [row];
    }
  }

  /**
   An undisturbed confirmation. One that was stored before is only compared; one that does not fit or cannot be read is
   filed as unprocessable; any other posts its amount for its member and period, unless there is nothing to settle.
   */
  lemma ConfirmationIsFiled(
      w: World, connection: nat, fits: bool, note: Paybill, member: Option<nat>, period: int, lostRace: bool)
    requires w.books.price > 0
    ensures var (next, answer) := ConfirmPaybill(w, connection, fits, note, member, period, lostRace, Nowhere);
            var stored := StoredEvent(w.events, connection, PaybillId(note));
            var e := if stored.Some? then stored.value else |w.events|;
            && answer == EventIs(e) && e < |next.events| && next.intents == w.intents
            && var status := next.events[e].status;
               if stored.Some? then
                 next.books == w.books && status == if w.events[e].payload == FromPaybill(note) then Deduplicated else Disagreement
               else if !fits || !note.readable then next.books == w.books && status == Unprocessable
               else if SettlesNothing(w.books, note, member, period, lostRace) then
                 next.books == w.books && status in {Processed, Disagreement}
               else status == Processed && Credited(w.books, next.books, member.value, note.amount.value, period)
  {
    SettledOrNot(w.books, note, member, period, lostRace);
  }

  lemma CrashedStoreBlocks(
      w: World, connection: nat, fits: bool, note: Paybill, member: Option<nat>, period: int, lostRace: bool)
    requires w.books.price > 0
    ensures var crashed := ConfirmPaybill(w, connection, fits, note, member, period, lostRace, AfterStore).0;
            StoredEvent(crashed.events, connection, PaybillId(note)).Some? <==> PaybillId(note).Some?
  {
    if PaybillId(note).Some? {
      ConfirmationIsStored(w, connection, fits, note, member, period, lostRace, AfterStore);
    }
  }

  /**
   A confirmation crashes right after its event is stored and the provider delivers it again. The books are those
   of an undisturbed confirmation if and only if the two deliveries are not recognised as one (no id), the event
   was stored before, the connection or short code does not fit, or there was nothing to settle. Otherwise the
   undisturbed confirmation posts, and the money of the crashed one is lost.
   */
  lemma CrashedConfirmationIsHarmlessIff(
      w: World, connection: nat, fits: bool, note: Paybill, member: Option<nat>, period: int, lostRace: bool)
    requires w.books.price > 0
    ensures var undisturbed := ConfirmPaybill(w, connection, fits, note, member, period, lostRace, Nowhere).0;
            var crashed := ConfirmPaybill(w, connection, fits, note, member, period, lostRace, AfterStore).0;
            var again := ConfirmPaybill(crashed, connection, fits, note, member, period, lostRace, Nowhere).0;
            again.books == undisturbed.books <==>
              || PaybillId(note).None?
              || StoredEvent(w.events, connection, PaybillId(note)).Some?
              || !fits
              || SettlesNothing(w.books, note, member, period, lostRace)
  {
    CrashedStoreBlocks(w, connection, fits, note, member, period, lostRace);
    SettlesNothingIff(w.books, note, member, period, lostRace);
  }

  /** Nothing settles such a confirmation any more, whatever happens before the redelivery. */
  lemma CrashedConfirmationIsLost(w: World, first: Action, between: seq<Action>, again: Action)
    requires Sound(w) && first.DoConfirm? && first.point == AfterStore && PaybillId(first.note).Some?
    requires again.DoConfirm? && again.connection == first.connection && again.note == first.note
    ensures Step(w, first).0.books == w.books
    ensures var end := Run(Step(w, first).0, between);
            Step(end, again).0.books == end.books
  {
    PaybillSettlesAtMostOnce(w, first, between, again);
  }
}
