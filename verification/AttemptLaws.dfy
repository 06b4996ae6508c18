/**
 When the provider is asked, exactly. A new attempt is made only for a fresh intent, or after a failure that may be
 retried while attempts remain; an attempt of unknown outcome is queried first, and nothing else is done while it stays so.
 */
module AttemptLaws {
  import opened Wrappers
  import opened Ledger
  import B = Books
  import opened Payments
  import P = PaymentProtocol
  import W = WebhookLaws

  // ----- creating and listing -------------------------------------------------------------------

  /** The contribution exists, is the member's, is of this amount and is still PENDING. */
  predicate LinksPending(b: B.Books, ask: Ask) {
    ask.contribution.Some? ==>
      && ask.contribution.value < |b.contributions|
      && b.contributions[ask.contribution.value] == B.Contribution(
            ask.member, ask.amount, b.contributions[ask.contribution.value].period, B.Pending)
  }

  /** Under a new key an intent is created if and only if its amount is positive and its link, if any, is sound. */
  lemma CreatedIff(w: World, ask: Ask)
    requires forall i :: 0 <= i < |w.intents| ==> w.intents[i].ask.key != ask.key
    ensures var (next, answer) := Create(w, ask);
            if ask.amount > 0 && LinksPending(w.books, ask)
            then next == w.(intents := w.intents + [Intent(ask, Pending, [])]) && answer == IntentIs(|w.intents|)
            else next == w && answer == Raised
  {
  }

  /** Listing ends an intent if and only if it is PROCESSING and its last attempt failed for good; it changes nothing else. */
  lemma RepairedIff(w: World, i: nat)
    requires i < |w.intents|
    ensures var intent := w.intents[i];
            var hopeless := intent.status == Processing && intent.attempts != [] &&
                            intent.attempts[|intent.attempts| - 1].status == Failed && !intent.attempts[|intent.attempts| - 1].retryable;
            Repair(w, i).0 == w.(intents := w.intents[i := if hopeless then intent.(status := Lost) else intent])
  {
  }

  // ----- a new attempt --------------------------------------------------------------------------

  /** The attempt that the provider's answer leaves: its ids, and whether the provider says that a rejection may be retried. */
  ghost predicate Recorded(a: Attempt, number: nat, connection: nat, reply: Reply) {
    && a.number == number && a.connection == connection
    && match reply
       case NoReply => a.status == TimedOut && a.retryable && a.requestId.None? && a.rowRequestId.None? && a.transactionId.None?
       case Refused(again) =>
         a.status == Failed && a.retryable == again && a.requestId.None? && a.rowRequestId.None? && a.transactionId.None?
       case Accepted(requestId, transactionId) =>
         && a.status == Initiated && !a.retryable
         && a.requestId == requestId && a.rowRequestId == requestId && a.transactionId == transactionId
  }

  /** No attempt's row has one of these ids. */
  ghost predicate NobodyHas(intents: seq<Intent>, requestId: Option<nat>, transactionId: Option<nat>) {
    forall j, n :: 0 <= j < |intents| && 0 <= n < |intents[j].attempts| ==>
      && (requestId.Some? ==> intents[j].attempts[n].rowRequestId != requestId)
      && (transactionId.Some? ==> intents[j].attempts[n].transactionId != transactionId)
  }

  ghost predicate NewIds(intents: seq<Intent>, reply: Reply) {
    reply.Accepted? ==> NobodyHas(intents, reply.requestId, reply.transactionId)
  }

  /** The intent has one more attempt, number n + 1; a rejection for good ends it. */
  ghost predicate AttemptedOnceMore(intent: Intent, later: Intent, connection: nat, reply: Reply) {
    var n := |intent.attempts|;
    && later.ask == intent.ask
    && |later.attempts| == n + 1 && later.attempts[..n] == intent.attempts && Recorded(later.attempts[n], n + 1, connection, reply)
    && later.status == if reply == Refused(false) then Lost else Processing
  }

  /** Only intent i is different. */
  ghost predicate OnlyIntent(w: World, next: World, i: nat) {
    && next.books == w.books && next.events == w.events && next.most == w.most
    && i < |w.intents| == |next.intents|
    && forall j :: 0 <= j < |w.intents| && j != i ==> next.intents[j] == w.intents[j]
  }

  lemma AttemptIsMade(w: World, i: nat, connection: nat, reply: Reply)
    requires i < |w.intents| && w.intents[i].status == Processing
    ensures var n := |w.intents[i].attempts|;
            var (next, answer) := CreateAttempt(w, i, connection, n + 1, reply);
            if NewIds(w.intents, reply)
            then answer == AttemptIs(n) && OnlyIntent(w, next, i) && AttemptedOnceMore(w.intents[i], next.intents[i], connection, reply)
            else answer == Raised && next == w
  {
    var n := |w.intents[i].attempts|;
    var a := NewAttempt(n + 1, connection, reply);
    TakenIff(w.intents, i, n, a);
    assert (w.intents[i].attempts + [a])[..n] == w.intents[i].attempts;
  }

  lemma TakenIff(intents: seq<Intent>, i: nat, n: nat, a: Attempt)
    requires i < |intents| && n == |intents[i].attempts|
    ensures IdsTaken(intents, Place(i, n), a.rowRequestId, a.transactionId) <==> !NobodyHas(intents, a.rowRequestId, a.transactionId)
  {
  }

  /** The first attempt: the intent is PROCESSING from the first commit on, and number 1 is recorded as the provider answers. */
  lemma FirstAttempt(w: World, i: nat, connection: nat, query: Query, reply: Reply)
    requires P.Protocol(w) && i < |w.intents| && w.intents[i].status == Pending
    ensures var (next, answer) := Initiate(w, i, connection, true, query, reply, false);
            if NewIds(w.intents, reply)
            then answer == AttemptIs(0) && OnlyIntent(w, next, i) && AttemptedOnceMore(w.intents[i], next.intents[i], connection, reply)
            else answer == Raised && next == w.(intents := w.intents[i := w.intents[i].(status := Processing)])
  {
    P.ShapeOf(w, i);
    var started := WithIntent(w, i, w.intents[i].(status := Processing));
    SameAttemptsSameIds(w.intents, started.intents, reply);
    AttemptIsMade(started, i, connection, reply);
  }

  lemma SameAttemptsSameIds(intents: seq<Intent>, later: seq<Intent>, reply: Reply)
    requires |later| == |intents| && forall j :: 0 <= j < |intents| ==> later[j].attempts == intents[j].attempts
    ensures NewIds(later, reply) <==> NewIds(intents, reply)
  {
  }

  // ----- retries --------------------------------------------------------------------------------

  /** The intent is given up: no attempt is added. */
  ghost predicate GivenUp(w: World, next: World, i: nat) {
    OnlyIntent(w, next, i) && next.intents[i] == w.intents[i].(status := Lost)
  }

  /**
   After a failed last attempt of a PROCESSING intent: attempt n + 1 is made if and only if n is below the limit and the
   failure may be retried; otherwise the intent is lost and no attempt is added. An answer with an id that some row
   already has is not recorded.
   */
  lemma RetriedIff(w: World, i: nat, connection: nat, query: Query, reply: Reply, crash: bool)
    requires P.Protocol(w) && i < |w.intents| && w.intents[i].status == Processing && w.intents[i].attempts != []
    requires w.intents[i].attempts[|w.intents[i].attempts| - 1].status == Failed
    ensures var n := |w.intents[i].attempts|;
            var (next, answer) := Initiate(w, i, connection, true, query, reply, crash);
            if n >= w.most || !w.intents[i].attempts[n - 1].retryable then answer == Raised && GivenUp(w, next, i)
            else if NewIds(w.intents, reply)
            then answer == AttemptIs(n) && OnlyIntent(w, next, i) && AttemptedOnceMore(w.intents[i], next.intents[i], connection, reply)
            else answer == Raised && next == w
  {
    P.ShapeOf(w, i);
    P.OngoingIs(w, i, connection, query, reply, crash);
    ContinuedIff(w, i, connection, reply);
  }

  lemma ContinuedIff(w: World, i: nat, connection: nat, reply: Reply)
    requires i < |w.intents| && w.intents[i].status == Processing && w.intents[i].attempts != []
    requires w.intents[i].attempts[|w.intents[i].attempts| - 1].number == |w.intents[i].attempts|
    ensures var n := |w.intents[i].attempts|;
            var (next, answer) := Continue(w, i, connection, reply);
            if n >= w.most || !w.intents[i].attempts[n - 1].retryable then answer == Raised && GivenUp(w, next, i)
            else if NewIds(w.intents, reply)
            then answer == AttemptIs(n) && OnlyIntent(w, next, i) && AttemptedOnceMore(w.intents[i], next.intents[i], connection, reply)
            else answer == Raised && next == w
  {
    AttemptIsMade(w, i, connection, reply);
  }

  // ----- attempts of unknown outcome ------------------------------------------------------------

  /** No other attempt's row has an id that the answer names. */
  ghost predicate AnswerIsFree(intents: seq<Intent>, i: nat, k: nat, requestId: Option<nat>, transactionId: Option<nat>) {
    forall j, n :: 0 <= j < |intents| && 0 <= n < |intents[j].attempts| && !(j == i && n == k) ==>
      && (requestId.Some? ==> intents[j].attempts[n].rowRequestId != requestId)
      && (transactionId.Some? ==> intents[j].attempts[n].transactionId != transactionId)
  }

  lemma AnswerIsFreeIff(w: World, i: nat, k: nat, status: AttemptStatus, requestId: Option<nat>, transactionId: Option<nat>)
    requires P.IdsOk(w.intents) && i < |w.intents| && k < |w.intents[i].attempts|
    ensures var a := Ended(w.intents[i].attempts[k], status, requestId, transactionId);
            IdsTaken(w.intents, Place(i, k), a.rowRequestId, a.transactionId)
            <==> !AnswerIsFree(w.intents, i, k, requestId, transactionId)
  {
    var old_ := w.intents[i].attempts[k];
    assert !IdsTaken(w.intents, Place(i, k), old_.rowRequestId, old_.transactionId);
    if !AnswerIsFree(w.intents, i, k, requestId, transactionId) {
      var j, n :| 0 <= j < |w.intents| && 0 <= n < |w.intents[j].attempts| && !(j == i && n == k)
        && ((requestId.Some? && w.intents[j].attempts[n].rowRequestId == requestId)
            || (transactionId.Some? && w.intents[j].attempts[n].transactionId == transactionId));
      assert Place(j, n) != Place(i, k);
    }
  }

  /** The attempt with its row's ids replaced by those that the answer names. */
  function Renamed(a: Attempt, requestId: Option<nat>, transactionId: Option<nat>): Attempt {
    var b := if requestId.Some? then a.(rowRequestId := requestId) else a;
    if transactionId.Some? then b.(transactionId := transactionId) else b
  }

  /** Nothing is done about an attempt of unknown outcome that cannot be queried, or whose query finds nothing final. */
  lemma UnknownIsLeftAlone(w: World, i: nat, connection: nat, query: Query, reply: Reply, crash: bool)
    requires P.Protocol(w) && i < |w.intents| && w.intents[i].attempts != []
    requires var last := w.intents[i].attempts[|w.intents[i].attempts| - 1];
             Unresolved(last) && (last.requestId.None? || query.NoAnswer? || query.NotFinal?)
    ensures Initiate(w, i, connection, true, query, reply, crash) == (w, AttemptIs(|w.intents[i].attempts| - 1))
  {
    P.ShapeOf(w, i);
  }

  /** A query that finds the payment: the attempt succeeds, the intent is collected and settled, or nothing happens. */
  lemma FoundPaidIsCollected(
      w: World, i: nat, connection: nat, requestId: Option<nat>, transactionId: Option<nat>, reply: Reply, crash: bool)
    requires P.Protocol(w) && i < |w.intents| && w.intents[i].attempts != []
    requires var last := w.intents[i].attempts[|w.intents[i].attempts| - 1]; Unresolved(last) && last.requestId.Some?
    ensures var k := |w.intents[i].attempts| - 1;
            var link := w.intents[i].ask.contribution;
            var (next, answer) := Initiate(w, i, connection, true, FoundPaid(requestId, transactionId), reply, crash);
            if AnswerIsFree(w.intents, i, k, requestId, transactionId)
               && (link.Some? ==> link.value < |w.books.contributions| && w.books.contributions[link.value].status != B.Reversed)
            then
              && answer == AttemptIs(k) && next.events == w.events && W.SettledFor(w.books, next.books, link)
              && next.intents == w.intents[i := w.intents[i].(
                                             status := Collected,
                                             attempts := w.intents[i].attempts[k :=
                                               Renamed(w.intents[i].attempts[k], requestId, transactionId).(status := Succeeded)])]
            else next == w && answer == Raised
  {
    var k := |w.intents[i].attempts| - 1;
    P.ShapeOf(w, i);
    P.UnresolvedIsLast(w.most, w.intents[i], k);
    assert P.LinkOk(w.books.contributions, w.intents[i]);
    P.OngoingIs(w, i, connection, FoundPaid(requestId, transactionId), reply, crash);
    AnswerIsFreeIff(w, i, k, Succeeded, requestId, transactionId);
    W.LinkedIsSettled(w, i);
  }

  /** The world after a query found the failure: the attempt failed, and may be retried unless the failure is permanent. */
  function Found(w: World, i: nat, permanent: bool, requestId: Option<nat>, transactionId: Option<nat>): World
    requires i < |w.intents| && w.intents[i].attempts != []
  {
    var k := |w.intents[i].attempts| - 1;
    var a := Renamed(w.intents[i].attempts[k], requestId, transactionId).(status := Failed, retryable := !permanent);
    w.(intents := w.intents[i := w.intents[i].(attempts := w.intents[i].attempts[k := a])])
  }

  /**
   A query that finds a failure commits it; then attempt n + 1 is made if and only if n is below the limit and the
   failure is not permanent, and otherwise the intent is lost.
   */
  lemma RetriedAfterQueryIff(
      w: World, i: nat, connection: nat, permanent: bool, requestId: Option<nat>, transactionId: Option<nat>, reply: Reply)
    requires P.Protocol(w) && i < |w.intents| && w.intents[i].attempts != []
    requires var last := w.intents[i].attempts[|w.intents[i].attempts| - 1]; Unresolved(last) && last.requestId.Some?
    requires AnswerIsFree(w.intents, i, |w.intents[i].attempts| - 1, requestId, transactionId)
    ensures var n := |w.intents[i].attempts|;
            var failed := Found(w, i, permanent, requestId, transactionId);
            var (next, answer) := Initiate(w, i, connection, true, FoundFailed(permanent, requestId, transactionId), reply, false);
            if n >= w.most || permanent then answer == Raised && GivenUp(failed, next, i)
            else if NewIds(failed.intents, reply)
            then answer == AttemptIs(n) && OnlyIntent(failed, next, i)
                 && AttemptedOnceMore(failed.intents[i], next.intents[i], connection, reply)
            else answer == Raised && next == failed
  {
    var k := |w.intents[i].attempts| - 1;
    var failed := Found(w, i, permanent, requestId, transactionId);
    P.ShapeOf(w, i);
    P.UnresolvedIsLast(w.most, w.intents[i], k);
    P.OngoingIs(w, i, connection, FoundFailed(permanent, requestId, transactionId), reply, false);
    AnswerIsFreeIff(w, i, k, Failed, requestId, transactionId);
    ContinuedIff(failed, i, connection, reply);
  }

  // ----- everything else leaves all as it is ----------------------------------------------------

  /** A finished intent, or a request that is not let through, changes nothing; a finished one is answered with its last attempt. */
  lemma OthersChangeNothing(w: World, i: nat, connection: nat, admitted: bool, query: Query, reply: Reply, crash: bool)
    requires P.Protocol(w)
    requires i >= |w.intents| || w.intents[i].status in {Collected, Lost} || !admitted
    ensures Initiate(w, i, connection, admitted, query, reply, crash)
            == (w, if i < |w.intents| && w.intents[i].status == Collected then AttemptIs(|w.intents[i].attempts| - 1) else Raised)
  {
    if i < |w.intents| {
      P.ShapeOf(w, i);
    }
  }

  /**
   A failure that a callback reports is never retried: the attempt was accepted, so it is not marked retryable, and
   the callback does not mark it. The next initiation loses the intent, however many attempts remain.
   */
  lemma DeclinedByCallbackIsNotRetried(
      w: World, connection: nat, cb: Callback, i: nat, k: nat, other: nat, query: Query, reply: Reply, crash: bool)
    requires P.Protocol(w) && W.Live(w, connection, cb) && W.Concerns(w, connection, cb, i, k)
    requires Unresolved(w.intents[i].attempts[k]) && cb.verdict == Some(Declined) && W.SameMoney(w.intents[i].ask, cb)
    requires k + 1 < w.most
    ensures var declined := Deliver(w, connection, cb, Nowhere).0;
            && i < |declined.intents| && declined.intents[i].status == Processing
            && var (next, answer) := Initiate(declined, i, other, true, query, reply, crash);
               answer == Raised && GivenUp(declined, next, i)
  {
    W.DeclinedIsApplied(w, connection, cb, i, k);
    P.ShapeOf(w, i);
    P.UnresolvedIsLast(w.most, w.intents[i], k);
    CarriedIsInitiated(w, connection, cb, i, k);
    var declined := Deliver(w, connection, cb, Nowhere).0;
    P.OngoingIs(declined, i, other, query, reply, crash);
  }

  lemma CarriedIsInitiated(w: World, connection: nat, cb: Callback, i: nat, k: nat)
    requires P.Protocol(w) && W.Concerns(w, connection, cb, i, k) && Unresolved(w.intents[i].attempts[k])
    ensures w.intents[i].attempts[k].status == Initiated && !w.intents[i].attempts[k].retryable
  {
    P.ReachableAttempt(w, Place(i, k), cb.requestId, cb.transactionId);
    P.ShapeOf(w, i);
  }
}
