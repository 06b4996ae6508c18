/**
 Collecting money through a provider: payment intents, their provider attempts, status queries and the
 webhook inbox. Each function is one request; it maps the committed state to the next one and says how
 the request ended. What the provider answers, and where a request crashes, are arguments.
 */
module Payments {
  import opened Wrappers
  import B = Books

  datatype AttemptStatus = Initiated | TimedOut | Unclear | Succeeded | Failed

  /**
   One provider request together with the row that keeps the provider's view of it. requestId is the id the
   request was accepted with; rowRequestId and transactionId are the row's, and a later query may change them.
   */
  datatype Attempt = Attempt(
    number: nat, connection: nat, status: AttemptStatus, retryable: bool,
    requestId: Option<nat>, rowRequestId: Option<nat>, transactionId: Option<nat>)

  /** Collected and Lost are the intents table's SUCCEEDED and FAILED. */
  datatype IntentStatus = Pending | Processing | Collected | Lost

  /** What a client asks to collect; detail stands for the purpose and the phone to prompt. */
  datatype Ask = Ask(key: nat, member: nat, amount: int, currency: nat, detail: nat, contribution: Option<nat>)

  datatype Intent = Intent(ask: Ask, status: IntentStatus, attempts: seq<Attempt>)

  /** A provider's normalised status: SUCCEEDED, FAILED, PENDING or UNKNOWN. */
  datatype Finding = Paid | Declined | Underway | Unsure

  datatype Callback = Callback(
    eventId: Option<nat>, requestId: Option<nat>, transactionId: Option<nat>, verdict: Option<Finding>,
    amount: Option<int>, currency: Option<nat>, rest: nat)

  /** A Paybill confirmation; number is its BillRefNumber as a membership number, when it is one. */
  datatype Paybill = Paybill(transId: Option<nat>, amount: Option<int>, number: Option<int>, readable: bool, rest: nat)

  /** Equal payloads have equal hashes and different payloads different ones. */
  datatype Payload = FromProvider(callback: Callback) | FromPaybill(note: Paybill)

  datatype EventId = CallbackEvent(id: nat) | PaybillEvent(id: nat)

  datatype EventStatus = Received | Processed | Deduplicated | Disagreement | Unprocessable

  datatype Event = Event(connection: nat, id: Option<EventId>, payload: Payload, status: EventStatus)

  /** The state: most is the number of attempts that an intent may have. */
  datatype World = World(books: B.Books, intents: seq<Intent>, events: seq<Event>, most: nat)

  datatype Answer = IntentIs(intent: nat) | AttemptIs(attempt: nat) | EventIs(event: nat) | Served | Raised | Crashed

  datatype Place = Place(intent: nat, attempt: nat)

  // ----- creating an intent ---------------------------------------------------------------------

  /** The intent that uses an idempotency key, if any. */
  function FindKey(intents: seq<Intent>, key: nat): (found: Option<nat>)
    ensures found.Some? ==> found.value < |intents| && intents[found.value].ask.key == key
    ensures found.None? ==> forall i :: 0 <= i < |intents| ==> intents[i].ask.key != key
  {
    if intents == [] then None
    else
      var n := |intents| - 1;
      var front := FindKey(intents[..n], key);
      if front.Some? then front else if intents[n].ask.key == key then Some(n) else None
  }

  /** Only a PENDING contribution of the same member and amount can be linked. */
  predicate Linkable(b: B.Books, ask: Ask) {
    ask.contribution.Some? ==>
      var c := ask.contribution.value;
      && c < |b.contributions| && b.contributions[c].member == ask.member
      && b.contributions[c].status == B.Pending && b.contributions[c].amount == ask.amount
  }

  function Create(w: World, ask: Ask): (end: (World, Answer))
    ensures end.0.books == w.books
  {
    if !Linkable(w.books, ask) then (w, Raised)
    else
      match FindKey(w.intents, ask.key)
      case Some(i) => (w, if w.intents[i].ask == ask then IntentIs(i) else Raised)
      case None =>
        if ask.amount <= 0 then (w, Raised)
        else (w.(intents := w.intents + [Intent(ask, Pending, [])]), IntentIs(|w.intents|))
  }

  // ----- attempts -------------------------------------------------------------------------------

  function WithIntent(w: World, i: nat, intent: Intent): (next: World)
    requires i < |w.intents|
    ensures |next.intents| == |w.intents|
  {
    w.(intents := w.intents[i := intent])
  }

  predicate Unresolved(a: Attempt) {
    a.status in {Initiated, TimedOut, Unclear}
  }

  /** The row of another attempt already has one of these ids; the unique indexes refuse a second one. */
  predicate IdsTaken(intents: seq<Intent>, place: Place, requestId: Option<nat>, transactionId: Option<nat>) {
    exists i, k :: 0 <= i < |intents| && 0 <= k < |intents[i].attempts| && Place(i, k) != place
      && var a := intents[i].attempts[k];
         (requestId.Some? && a.rowRequestId == requestId) || (transactionId.Some? && a.transactionId == transactionId)
  }

  /** The transition table of an intent lets only a PROCESSING one fail. */
  function Closed(intent: Intent): Intent {
    if intent.status == Processing then intent.(status := Lost) else intent
  }

  /** What the provider answers to a new payment request; a rejection may be permanent. */
  datatype Reply = NoReply | Refused(retryable: bool) | Accepted(requestId: Option<nat>, transactionId: Option<nat>)

  function NewAttempt(number: nat, connection: nat, reply: Reply): Attempt {
    match reply
    case NoReply => Attempt(number, connection, TimedOut, true, None, None, None)
    case Refused(retryable) => Attempt(number, connection, Failed, retryable, None, None, None)
    case Accepted(requestId, transactionId) => Attempt(number, connection, Initiated, false, requestId, requestId, transactionId)
  }

  /** One provider call and the row that records it; a permanent rejection ends the intent. */
  function CreateAttempt(w: World, i: nat, connection: nat, number: nat, reply: Reply): (end: (World, Answer))
    requires i < |w.intents|
    ensures end.0.books == w.books
  {
    var intent := w.intents[i];
    var a := NewAttempt(number, connection, reply);
    if IdsTaken(w.intents, Place(i, |intent.attempts|), a.rowRequestId, a.transactionId) then (w, Raised)
    else
      var later := intent.(attempts := intent.attempts + [a]);
      (WithIntent(w, i, if a.status == Failed && !a.retryable then Closed(later) else later), AttemptIs(|intent.attempts|))
  }

  /** A query's answer: none, no final status, or a final one with the ids it names. */
  datatype Query =
    | NoAnswer
    | NotFinal
    | FoundPaid(requestId: Option<nat>, transactionId: Option<nat>)
    | FoundFailed(permanent: bool, requestId: Option<nat>, transactionId: Option<nat>)

  function OrElse(a: Option<nat>, b: Option<nat>): Option<nat> {
    if a.Some? then a else b
  }

  /** An attempt ends; its row takes the ids that came with the news, and keeps the others. */
  function Ended(a: Attempt, status: AttemptStatus, requestId: Option<nat>, transactionId: Option<nat>): Attempt {
    a.(status := status, rowRequestId := OrElse(requestId, a.rowRequestId), transactionId := OrElse(transactionId, a.transactionId))
  }

  /** Payments never touch the loans or the unit price. */
  predicate SameTerms(b: B.Books, after: B.Books) {
    after.price == b.price && after.loans == b.loans
  }

  /** Settlement of the linked contribution; None is an error that rolls the request back. */
  function SettleLinked(b: B.Books, ask: Ask): (end: Option<B.Books>)
    requires b.price > 0
    ensures end.Some? ==> SameTerms(b, end.value)
  {
    match ask.contribution
    case None => Some(b)
    case Some(c) =>
      if c >= |b.contributions| || b.contributions[c].member != ask.member then None
      else
        var (after, outcome) := B.Settle(b, c, true);
        if outcome == B.Done then Some(after) else None
  }

  /** An attempt succeeds: its status, the intent's, and the settlement, in one commit or not at all. */
  function Collect(w: World, i: nat, k: nat, requestId: Option<nat>, transactionId: Option<nat>): (end: Option<World>)
    requires w.books.price > 0 && i < |w.intents| && k < |w.intents[i].attempts|
    ensures end.Some? ==> SameTerms(w.books, end.value.books)
  {
    var intent := w.intents[i];
    var a := Ended(intent.attempts[k], Succeeded, requestId, transactionId);
    if IdsTaken(w.intents, Place(i, k), a.rowRequestId, a.transactionId) then None
    else
      match SettleLinked(w.books, intent.ask)
      case None => None
      case Some(books) =>
        Some(WithIntent(w, i, intent.(attempts := intent.attempts[k := a],
                                      status := if intent.status == Processing then Collected else intent.status))
             .(books := books))
  }

  /** After a failed last attempt: end the intent, or ask the provider once more. */
  function Continue(w: World, i: nat, connection: nat, reply: Reply): (end: (World, Answer))
    requires i < |w.intents| && w.intents[i].attempts != []
    ensures end.0.books == w.books
  {
    var intent := w.intents[i];
    var last := intent.attempts[|intent.attempts| - 1];
    if last.number >= w.most || !last.retryable then (WithIntent(w, i, Closed(intent)), Raised)
    else CreateAttempt(w, i, connection, last.number + 1, reply)
  }

  /** Find out what became of an attempt whose outcome is unknown, and only then go on. */
  function Resume(w: World, i: nat, connection: nat, query: Query, reply: Reply, crash: bool): (end: (World, Answer))
    requires w.books.price > 0 && i < |w.intents| && w.intents[i].attempts != []
    ensures SameTerms(w.books, end.0.books)
  {
    var intent := w.intents[i];
    var k := |intent.attempts| - 1;
    var last := intent.attempts[k];
    if last.requestId.None? then (w, AttemptIs(k))
    else
      match query
      case NoAnswer => (w, AttemptIs(k))
      case NotFinal => (w, AttemptIs(k))
      case FoundPaid(requestId, transactionId) =>
        (match Collect(w, i, k, requestId, transactionId)
         case None => (w, Raised)
         case Some(after) => (after, AttemptIs(k)))
      case FoundFailed(permanent, requestId, transactionId) =>
        var a := Ended(last, Failed, requestId, transactionId).(retryable := !permanent);
        if IdsTaken(w.intents, Place(i, k), a.rowRequestId, a.transactionId) then (w, Raised)
        else
          var failed := WithIntent(w, i, intent.(attempts := intent.attempts[k := a]));
          if crash then (failed, Crashed) else Continue(failed, i, connection, reply)
  }

  /**
   Start or continue an intent. admitted says that the connection, the rate limit and the member let it
   through; a crash falls after the first commit.
   */
  function Initiate(
      w: World, i: nat, connection: nat, admitted: bool, query: Query, reply: Reply, crash: bool)
    : (end: (World, Answer))
    requires w.books.price > 0
    ensures SameTerms(w.books, end.0.books)
  {
    if i >= |w.intents| then (w, Raised)
    else
      var intent := w.intents[i];
      var n := |intent.attempts|;
      if intent.status == Lost then (w, Raised)
      else if intent.status == Collected then (w, if n > 0 then AttemptIs(n - 1) else Raised)
      else if !admitted then (w, Raised)
      else if n == 0 then
        if intent.status != Pending then (w, Raised)
        else
          var started := WithIntent(w, i, intent.(status := Processing));
          if crash then (started, Crashed) else CreateAttempt(started, i, connection, 1, reply)
      else if intent.attempts[n - 1].status == Succeeded then (w, AttemptIs(n - 1))
      else if Unresolved(intent.attempts[n - 1]) then Resume(w, i, connection, query, reply, crash)
      else Continue(w, i, connection, reply)
  }

  /** Listing intents ends those whose last attempt was rejected for good. */
  predicate NeedsRepair(intent: Intent) {
    && intent.status == Processing && intent.attempts != []
    && var last := intent.attempts[|intent.attempts| - 1]; last.status == Failed && !last.retryable
  }

  function Repair(w: World, i: nat): (end: (World, Answer))
    ensures end.0.books == w.books
  {
    if i >= |w.intents| then (w, Raised)
    else (WithIntent(w, i, if NeedsRepair(w.intents[i]) then Closed(w.intents[i]) else w.intents[i]), Served)
  }

  // ----- the webhook inbox ----------------------------------------------------------------------

  function FindEvent(events: seq<Event>, connection: nat, id: EventId): (found: Option<nat>)
    ensures found.Some? ==> found.value < |events| && events[found.value].connection == connection && events[found.value].id == Some(id)
    ensures found.None? ==> forall e :: 0 <= e < |events| ==> events[e].connection != connection || events[e].id != Some(id)
  {
    if events == [] then None
    else
      var n := |events| - 1;
      var front := FindEvent(events[..n], connection, id);
      if front.Some? then front else if events[n].connection == connection && events[n].id == Some(id) then Some(n) else None
  }

  predicate Carries(a: Attempt, requestId: Option<nat>, transactionId: Option<nat>) {
    (requestId.Some? && a.requestId == requestId) || (transactionId.Some? && a.transactionId == transactionId)
  }

  function AttemptWith(attempts: seq<Attempt>, requestId: Option<nat>, transactionId: Option<nat>): (found: Option<nat>)
    ensures found.Some? ==> found.value < |attempts| && Carries(attempts[found.value], requestId, transactionId)
    ensures found.None? ==> forall k :: 0 <= k < |attempts| ==> !Carries(attempts[k], requestId, transactionId)
  {
    if attempts == [] then None
    else
      var n := |attempts| - 1;
      var front := AttemptWith(attempts[..n], requestId, transactionId);
      if front.Some? then front else if Carries(attempts[n], requestId, transactionId) then Some(n) else None
  }

  function PlaceWith(intents: seq<Intent>, requestId: Option<nat>, transactionId: Option<nat>): (found: Option<Place>)
    ensures found.Some? ==>
              found.value.intent < |intents| && found.value.attempt < |intents[found.value.intent].attempts|
              && Carries(intents[found.value.intent].attempts[found.value.attempt], requestId, transactionId)
    ensures found.None? ==> forall i, k :: 0 <= i < |intents| && 0 <= k < |intents[i].attempts| ==>
                              !Carries(intents[i].attempts[k], requestId, transactionId)
  {
    if intents == [] then None
    else
      var n := |intents| - 1;
      var front := PlaceWith(intents[..n], requestId, transactionId);
      if front.Some? then front
      else
        match AttemptWith(intents[n].attempts, requestId, transactionId)
        case None => None
        case Some(k) => Some(Place(n, k))
  }

  /** The attempt a callback is about: by request id, else by transaction id. */
  function FindAttempt(intents: seq<Intent>, cb: Callback): (found: Option<Place>)
    ensures found.Some? ==>
              found.value.intent < |intents| && found.value.attempt < |intents[found.value.intent].attempts|
              && Carries(intents[found.value.intent].attempts[found.value.attempt], cb.requestId, cb.transactionId)
  {
    var byRequest := PlaceWith(intents, cb.requestId, None);
    if byRequest.Some? then byRequest else PlaceWith(intents, None, cb.transactionId)
  }

  /** Where a delivery crashes: nowhere, right after the inbox commit, or right after the commit inside settlement. */
  datatype CrashPoint = Nowhere | AfterStore | AfterPosting

  function Stamp(w: World, e: nat, status: EventStatus): (next: World)
    requires e < |w.events|
    ensures |next.events| == |w.events|
  {
    w.(events := w.events[e := w.events[e].(status := status)])
  }

  function Matches<T(==)>(given: Option<T>, expected: T): bool {
    given.None? || given.value == expected
  }

  /** How an event ends when its callback cannot change the attempt; None when it can. */
  function Verdict(w: World, place: Place, cb: Callback): Option<EventStatus>
    requires place.intent < |w.intents| && place.attempt < |w.intents[place.intent].attempts|
  {
    var intent := w.intents[place.intent];
    var a := intent.attempts[place.attempt];
    if !Matches(cb.amount, intent.ask.amount) || !Matches(cb.currency, intent.ask.currency) then Some(Disagreement)
    else if cb.verdict !in {Some(Paid), Some(Declined)} then Some(Unprocessable)
    else if a.status == Succeeded then Some(if cb.verdict == Some(Paid) then Processed else Disagreement)
    else if a.status == Failed then Some(if cb.verdict == Some(Declined) then Processed else Disagreement)
    else None
  }

  /**
   The provider was paid. The posting inside settlement commits everything but the event; when settlement
   posts nothing, nothing is committed before the event is.
   */
  function ApplyPaid(w: World, e: nat, place: Place, cb: Callback, crash: CrashPoint): (end: (World, Answer))
    requires w.books.price > 0 && e < |w.events|
    requires place.intent < |w.intents| && place.attempt < |w.intents[place.intent].attempts|
    ensures SameTerms(w.books, end.0.books)
  {
    match Collect(w, place.intent, place.attempt, None, cb.transactionId)
    case None => (w, Raised)
    case Some(after) =>
      if crash == AfterPosting then (if after.books != w.books then after else w, Crashed)
      else (Stamp(after, e, Processed), EventIs(e))
  }

  function ApplyCallback(w: World, e: nat, place: Place, cb: Callback, crash: CrashPoint): (end: (World, Answer))
    requires w.books.price > 0 && e < |w.events|
    requires place.intent < |w.intents| && place.attempt < |w.intents[place.intent].attempts|
    ensures SameTerms(w.books, end.0.books)
  {
    var intent := w.intents[place.intent];
    var a := intent.attempts[place.attempt];
    if Verdict(w, place, cb).Some? then (Stamp(w, e, Verdict(w, place, cb).value), EventIs(e))
    else if cb.verdict == Some(Paid) then ApplyPaid(w, e, place, cb, crash)
    else
      var failed := intent.(attempts := intent.attempts[place.attempt := a.(status := Failed)]);
      (Stamp(WithIntent(w, place.intent, if a.number >= w.most then Closed(failed) else failed), e, Processed), EventIs(e))
  }

  function ProcessCallback(w: World, e: nat, connection: nat, cb: Callback, crash: CrashPoint): (end: (World, Answer))
    requires w.books.price > 0 && e < |w.events|
    ensures SameTerms(w.books, end.0.books)
  {
    match FindAttempt(w.intents, cb)
    case None => (Stamp(w, e, Unprocessable), EventIs(e))
    case Some(place) =>
      if w.intents[place.intent].attempts[place.attempt].connection != connection then (Stamp(w, e, Unprocessable), EventIs(e))
      else ApplyCallback(w, e, place, cb, crash)
  }

  function CallbackId(cb: Callback): Option<EventId> {
    if cb.eventId.Some? then Some(CallbackEvent(cb.eventId.value)) else None
  }

  function StoredEvent(events: seq<Event>, connection: nat, id: Option<EventId>): (found: Option<nat>)
    ensures found.Some? ==> found.value < |events| && events[found.value].connection == connection && events[found.value].id == id && id.Some?
  {
    if id.None? then None else FindEvent(events, connection, id.value)
  }

  /** One delivery: store it or recognise it; a stored event that was never finished is resumed. */
  function Deliver(w: World, connection: nat, cb: Callback, crash: CrashPoint): (end: (World, Answer))
    requires w.books.price > 0
    ensures SameTerms(w.books, end.0.books)
  {
    match StoredEvent(w.events, connection, CallbackId(cb))
    case Some(e) =>
      if w.events[e].payload != FromProvider(cb) then (Stamp(w, e, Disagreement), EventIs(e))
      else if w.events[e].status != Received then (Stamp(w, e, Deduplicated), EventIs(e))
      else if crash == AfterStore then (w, Crashed)
      else ProcessCallback(w, e, connection, cb, crash)
    case None =>
      var e := |w.events|;
      var stored := w.(events := w.events + [Event(connection, CallbackId(cb), FromProvider(cb), Received)]);
      if crash == AfterStore then (stored, Crashed)
      else if cb.eventId.None? || cb.verdict.None? then (Stamp(stored, e, Unprocessable), EventIs(e))
      else ProcessCallback(stored, e, connection, cb, crash)
  }

  // ----- Paybill confirmations ------------------------------------------------------------------

  function PaybillId(note: Paybill): Option<EventId> {
    if note.readable && note.transId.Some? then Some(PaybillEvent(note.transId.value)) else None
  }

  /** The contribution of this member and period that is not reversed, if any. */
  function FindOpen(rows: seq<B.Contribution>, member: nat, period: int): (found: Option<nat>)
    ensures found.Some? ==> found.value < |rows| && B.OpenFor(rows[found.value], member, period)
    ensures found.None? <==> !B.HasOpen(rows, member, period)
  {
    if rows == [] then None
    else
      var n := |rows| - 1;
      var front := FindOpen(rows[..n], member, period);
      assert front.Some? ==> B.OpenFor(rows[front.value], member, period);
      if front.Some? then front else if B.OpenFor(rows[n], member, period) then Some(n) else None
  }

  /**
   Settle a confirmation for an active member. lostRace says that another session inserted the
   contribution of the same member and period first, so that the unique index refuses this one.
   */
  function SettleConfirmation(
      b: B.Books, note: Paybill, member: Option<nat>, period: int, lostRace: bool): (end: (B.Books, EventStatus))
    requires b.price > 0
    ensures SameTerms(b, end.0)
  {
    if note.amount.None? || note.amount.value <= 0 || note.number.None? || member.None? then (b, Disagreement)
    else
      match FindOpen(b.contributions, member.value, period)
      case None =>
        if lostRace then (b, Disagreement)
        else
          var created := B.RecordContribution(b, member.value, note.amount.value, period).0;
          (B.Settle(created, |b.contributions|, true).0, Processed)
      case Some(c) =>
        if b.contributions[c].amount != note.amount.value then (b, Disagreement)
        else (B.Settle(b, c, true).0, Processed)
  }

  /**
   One Paybill confirmation on a connection. fits says that the connection is active and the short code is
   its own. A stored event is never resumed, whatever state a crash left it in.
   */
  function ConfirmPaybill(
      w: World, connection: nat, fits: bool, note: Paybill, member: Option<nat>, period: int, lostRace: bool, crash: CrashPoint)
    : (end: (World, Answer))
    requires w.books.price > 0
    ensures SameTerms(w.books, end.0.books)
  {
    match StoredEvent(w.events, connection, PaybillId(note))
    case Some(e) =>
      (Stamp(w, e, if w.events[e].payload != FromPaybill(note) then Disagreement else Deduplicated), EventIs(e))
    case None =>
      var e := |w.events|;
      var unfit := !fits || !note.readable;
      var stored := w.(events := w.events + [Event(connection, PaybillId(note), FromPaybill(note), if unfit then Unprocessable else Received)]);
      if crash == AfterStore then (stored, Crashed)
      else if unfit then (stored, EventIs(e))
      else
        var (books, status) := SettleConfirmation(w.books, note, member, period, lostRace);
        if crash == AfterPosting then (stored.(books := books), Crashed)
        else (Stamp(stored.(books := books), e, status), EventIs(e))
  }
}
