/** What every request of the payment protocol keeps, whatever the provider answers and wherever it crashes. */
module PaymentProtocol {
  import opened Wrappers
  import B = Books
  import opened Payments

  // ----- one intent -----------------------------------------------------------------------------

  /** Attempts are numbered from one within the limit, and all but the last have failed. */
  ghost predicate AttemptsOk(most: nat, attempts: seq<Attempt>) {
    && |attempts| <= most
    && (forall k :: 0 <= k < |attempts| ==> attempts[k].number == k + 1)
    && (forall k :: 0 <= k < |attempts| - 1 ==> attempts[k].status == Failed)
    && (forall k :: 0 <= k < |attempts| ==>
          && attempts[k].status != Unclear
          && (attempts[k].status == Initiated ==> !attempts[k].retryable)
          && (attempts[k].status == TimedOut ==> attempts[k].requestId.None? && attempts[k].transactionId.None?))
  }

  /** An intent is collected exactly when its last attempt succeeded, and lost only when all of them failed. */
  ghost predicate IntentOk(most: nat, intent: Intent) {
    var n := |intent.attempts|;
    && AttemptsOk(most, intent.attempts)
    && (intent.status == Pending ==> n == 0)
    && (intent.status == Collected <==> n > 0 && intent.attempts[n - 1].status == Succeeded)
    && (intent.status == Lost ==> n > 0 && intent.attempts[n - 1].status == Failed)
  }

  /** The linked contribution is the member's and of the intent's amount, and settled once the money is collected. */
  ghost predicate LinkOk(contributions: seq<B.Contribution>, intent: Intent) {
    && intent.ask.amount > 0
    && (intent.ask.contribution.Some? ==>
          var c := intent.ask.contribution.value;
          && c < |contributions|
          && contributions[c].member == intent.ask.member && contributions[c].amount == intent.ask.amount
          && (intent.status == Collected ==> contributions[c].status != B.Pending))
  }

  ghost predicate KeysOk(intents: seq<Intent>) {
    forall i, j :: 0 <= i < j < |intents| ==> intents[i].ask.key != intents[j].ask.key
  }

  /** No two rows of attempts share a provider id. */
  ghost predicate IdsOk(intents: seq<Intent>) {
    forall i, k :: 0 <= i < |intents| && 0 <= k < |intents[i].attempts| ==>
      !IdsTaken(intents, Place(i, k), intents[i].attempts[k].rowRequestId, intents[i].attempts[k].transactionId)
  }

  ghost predicate EventsOk(events: seq<Event>) {
    forall d, e :: 0 <= d < e < |events| && events[d].id.Some? && events[d].connection == events[e].connection ==>
      events[d].id != events[e].id
  }

  ghost predicate Protocol(w: World) {
    && w.most >= 1 && w.books.price > 0
    && (forall i :: 0 <= i < |w.intents| ==> IntentOk(w.most, w.intents[i]) && LinkOk(w.books.contributions, w.intents[i]))
    && KeysOk(w.intents) && IdsOk(w.intents) && EventsOk(w.events)
  }

  // ----- how an intent, an event and a contribution may move ------------------------------------

  predicate Final(status: AttemptStatus) {
    status == Succeeded || status == Failed
  }

  /** Final states never change, attempts are never dropped, and one is added only when all before it have failed. */
  ghost predicate IntentAdvances(old_: Intent, new_: Intent) {
    var n := |old_.attempts|;
    && new_.ask == old_.ask
    && n <= |new_.attempts|
    && (old_.status in {Collected, Lost} ==> new_ == old_)
    && (old_.status != Pending ==> new_.status != Pending)
    && (forall k :: 0 <= k < n ==>
          && new_.attempts[k].number == old_.attempts[k].number && new_.attempts[k].connection == old_.attempts[k].connection
          && (Final(old_.attempts[k].status) ==> new_.attempts[k] == old_.attempts[k])
          && (n < |new_.attempts| ==> new_.attempts[k].status == Failed))
  }

  ghost predicate IntentsAdvance(old_: seq<Intent>, new_: seq<Intent>) {
    |old_| <= |new_| && forall i :: 0 <= i < |old_| ==> IntentAdvances(old_[i], new_[i])
  }

  /** Events keep what they store, and never go back to RECEIVED. */
  ghost predicate EventsAdvance(old_: seq<Event>, new_: seq<Event>) {
    |old_| <= |new_| &&
    forall e :: 0 <= e < |old_| ==>
      && new_[e].connection == old_[e].connection && new_[e].id == old_[e].id && new_[e].payload == old_[e].payload
      && (old_[e].status != Received ==> new_[e].status != Received)
  }

  /** Contributions keep member, amount and period, and never go back to PENDING. */
  ghost predicate ContributionsAdvance(old_: seq<B.Contribution>, new_: seq<B.Contribution>) {
    |old_| <= |new_| &&
    forall c :: 0 <= c < |old_| ==>
      && new_[c].member == old_[c].member && new_[c].amount == old_[c].amount && new_[c].period == old_[c].period
      && (old_[c].status != B.Pending ==> new_[c].status != B.Pending)
  }

  ghost predicate Advances(w: World, next: World) {
    && next.most == w.most && next.books.price == w.books.price
    && IntentsAdvance(w.intents, next.intents) && EventsAdvance(w.events, next.events)
    && ContributionsAdvance(w.books.contributions, next.books.contributions)
  }

  /** A request's next state is sound and has only moved forward. */
  ghost predicate Keeps(w: World, next: World) {
    Protocol(next) && Advances(w, next)
  }

  // ----- one intent moves -----------------------------------------------------------------------

  /** The attempts of an intent after one of them changed, or a new one was added at the end. */
  ghost predicate OneAttempt(old_: seq<Attempt>, new_: seq<Attempt>, k: nat) {
    && k <= |old_| && |new_| == (if k == |old_| then k + 1 else |old_|)
    && forall j :: 0 <= j < |old_| && j != k ==> new_[j] == old_[j]
  }

  lemma IdsStayDistinct(intents: seq<Intent>, i: nat, k: nat, later: Intent)
    requires IdsOk(intents) && i < |intents| && OneAttempt(intents[i].attempts, later.attempts, k)
    requires !IdsTaken(intents, Place(i, k), later.attempts[k].rowRequestId, later.attempts[k].transactionId)
    ensures IdsOk(intents[i := later])
  {
  }

  /** One intent changes, together with contributions that only advance. */
  lemma IntentMoves(w: World, i: nat, k: nat, later: Intent, books: B.Books)
    requires Protocol(w) && i < |w.intents| && books.price == w.books.price
    requires ContributionsAdvance(w.books.contributions, books.contributions)
    requires IntentOk(w.most, later) && LinkOk(books.contributions, later) && IntentAdvances(w.intents[i], later)
    requires later.attempts == w.intents[i].attempts
             || (OneAttempt(w.intents[i].attempts, later.attempts, k)
                 && !IdsTaken(w.intents, Place(i, k), later.attempts[k].rowRequestId, later.attempts[k].transactionId))
    ensures Keeps(w, WithIntent(w, i, later).(books := books))
  {
    var next := WithIntent(w, i, later).(books := books);
    if later.attempts == w.intents[i].attempts {
      SameIds(w.intents, next.intents);
    } else {
      IdsStayDistinct(w.intents, i, k, later);
    }
    forall j | 0 <= j < |next.intents|
      ensures IntentOk(w.most, next.intents[j]) && LinkOk(books.contributions, next.intents[j])
      ensures IntentAdvances(w.intents[j], next.intents[j])
    {
      assert IntentOk(w.most, w.intents[j]) && LinkOk(w.books.contributions, w.intents[j]);
    }
  }

  lemma SameIds(intents: seq<Intent>, later: seq<Intent>)
    requires IdsOk(intents) && |later| == |intents| && forall i :: 0 <= i < |intents| ==> later[i].attempts == intents[i].attempts
    ensures IdsOk(later)
  {
  }

  lemma NothingMoves(w: World)
    requires Protocol(w)
    ensures Keeps(w, w)
  {
  }

  // ----- requests -------------------------------------------------------------------------------

  lemma CreateKeeps(w: World, ask: Ask)
    requires Protocol(w)
    ensures Keeps(w, Create(w, ask).0)
  {
    var next := Create(w, ask).0;
    if next != w {
      NewIntentHasNoIds(w.intents, ask);
    }
  }

  lemma NewIntentHasNoIds(intents: seq<Intent>, ask: Ask)
    requires IdsOk(intents)
    ensures IdsOk(intents + [Intent(ask, Pending, [])])
  {
  }

  /** The next attempt of a PROCESSING intent whose attempts have all failed. */
  lemma CreateAttemptKeeps(w: World, i: nat, connection: nat, number: nat, reply: Reply)
    requires Protocol(w) && i < |w.intents| && w.intents[i].status == Processing
    requires number == |w.intents[i].attempts| + 1 <= w.most
    requires forall k :: 0 <= k < |w.intents[i].attempts| ==> w.intents[i].attempts[k].status == Failed
    ensures Keeps(w, CreateAttempt(w, i, connection, number, reply).0)
  {
    var intent := w.intents[i];
    var next := CreateAttempt(w, i, connection, number, reply).0;
    if next == w {
      NothingMoves(w);
    } else {
      var k := |intent.attempts|;
      var a := NewAttempt(number, connection, reply);
      assert next.intents[i].attempts == intent.attempts + [a];
      assert !IdsTaken(w.intents, Place(i, k), a.rowRequestId, a.transactionId);
      IntentMoves(w, i, k, next.intents[i], w.books);
    }
  }

  /** A PROCESSING intent whose attempts have all failed may be given up. */
  lemma ClosingKeeps(w: World, i: nat)
    requires Protocol(w) && i < |w.intents| && w.intents[i].attempts != [] && w.intents[i].status == Processing
    requires w.intents[i].attempts[|w.intents[i].attempts| - 1].status == Failed
    ensures Keeps(w, WithIntent(w, i, Closed(w.intents[i])))
  {
    var next := WithIntent(w, i, Closed(w.intents[i]));
    assert IntentOk(w.most, w.intents[i]) && LinkOk(w.books.contributions, w.intents[i]);
    IntentMoves(w, i, 0, Closed(w.intents[i]), w.books);
    assert next == next.(books := w.books);
  }

  lemma ContinueKeeps(w: World, i: nat, connection: nat, reply: Reply)
    requires Protocol(w) && i < |w.intents| && w.intents[i].attempts != [] && w.intents[i].status == Processing
    requires w.intents[i].attempts[|w.intents[i].attempts| - 1].status == Failed
    ensures Keeps(w, Continue(w, i, connection, reply).0)
  {
    var last := w.intents[i].attempts[|w.intents[i].attempts| - 1];
    if last.number >= w.most || !last.retryable {
      ClosingKeeps(w, i);
    } else {
      AllFailed(w.most, w.intents[i]);
      CreateAttemptKeeps(w, i, connection, last.number + 1, reply);
    }
  }

  lemma AllFailed(most: nat, intent: Intent)
    requires IntentOk(most, intent) && intent.attempts != [] && intent.attempts[|intent.attempts| - 1].status == Failed
    ensures forall k :: 0 <= k < |intent.attempts| ==> intent.attempts[k].status == Failed
    ensures intent.attempts[|intent.attempts| - 1].number == |intent.attempts|
  {
  }

  lemma KeepsTwice(w: World, mid: World, end: World)
    requires Keeps(w, mid) && Keeps(mid, end)
    ensures Keeps(w, end)
  {
  }

  /** Settlement moves only forward, and leaves the linked contribution settled. */
  lemma SettleLinkedAdvances(b: B.Books, ask: Ask)
    requires b.price > 0 && SettleLinked(b, ask).Some?
    ensures var after := SettleLinked(b, ask).value;
            && after.price == b.price && ContributionsAdvance(b.contributions, after.contributions)
            && (ask.contribution.Some? ==>
                  ask.contribution.value < |after.contributions|
                  && after.contributions[ask.contribution.value].status == B.Confirmed)
  {
  }

  /** The last attempt is unresolved: the intent is PROCESSING and every earlier attempt failed. */
  lemma UnresolvedIsLast(most: nat, intent: Intent, k: nat)
    requires IntentOk(most, intent) && k < |intent.attempts| && Unresolved(intent.attempts[k])
    ensures k == |intent.attempts| - 1 && intent.status == Processing
  {
  }

  lemma CollectKeeps(w: World, i: nat, k: nat, requestId: Option<nat>, transactionId: Option<nat>)
    requires Protocol(w) && i < |w.intents| && k < |w.intents[i].attempts| && Unresolved(w.intents[i].attempts[k])
    requires w.intents[i].attempts[k].status != TimedOut && Collect(w, i, k, requestId, transactionId).Some?
    ensures Keeps(w, Collect(w, i, k, requestId, transactionId).value)
  {
    var intent := w.intents[i];
    var next := Collect(w, i, k, requestId, transactionId).value;
    assert IntentOk(w.most, intent) && LinkOk(w.books.contributions, intent);
    UnresolvedIsLast(w.most, intent, k);
    SettleLinkedAdvances(w.books, intent.ask);
    assert next == WithIntent(w, i, next.intents[i]).(books := next.books);
    CollectedIntent(w, i, k, requestId, transactionId);
    IntentMoves(w, i, k, next.intents[i], next.books);
  }

  lemma CollectedIntent(w: World, i: nat, k: nat, requestId: Option<nat>, transactionId: Option<nat>)
    requires w.books.price > 0 && i < |w.intents| && IdsOk(w.intents)
    requires IntentOk(w.most, w.intents[i]) && LinkOk(w.books.contributions, w.intents[i])
    requires k == |w.intents[i].attempts| - 1 && w.intents[i].status == Processing
    requires Unresolved(w.intents[i].attempts[k]) && Collect(w, i, k, requestId, transactionId).Some?
    ensures var next := Collect(w, i, k, requestId, transactionId).value;
            var later := next.intents[i];
            && IntentOk(w.most, later) && IntentAdvances(w.intents[i], later) && OneAttempt(w.intents[i].attempts, later.attempts, k)
            && LinkOk(next.books.contributions, later)
            && !IdsTaken(w.intents, Place(i, k), later.attempts[k].rowRequestId, later.attempts[k].transactionId)
  {
    var intent := w.intents[i];
    SettleLinkedAdvances(w.books, intent.ask);
    assert !IdsTaken(w.intents, Place(i, k), intent.attempts[k].rowRequestId, intent.attempts[k].transactionId);
  }

  /** An unresolved last attempt fails; the intent stays PROCESSING. */
  lemma FailingKeeps(w: World, i: nat, a: Attempt)
    requires Protocol(w) && i < |w.intents| && w.intents[i].attempts != []
    requires var k := |w.intents[i].attempts| - 1;
             var last := w.intents[i].attempts[k];
             && Unresolved(last) && last.status != TimedOut && a.status == Failed
             && a.number == last.number && a.connection == last.connection && a.requestId == last.requestId
             && !IdsTaken(w.intents, Place(i, k), a.rowRequestId, a.transactionId)
    ensures var k := |w.intents[i].attempts| - 1;
            var later := w.intents[i].(attempts := w.intents[i].attempts[k := a]);
            && Keeps(w, WithIntent(w, i, later)) && later.status == Processing
  {
    var k := |w.intents[i].attempts| - 1;
    var intent := w.intents[i];
    var later := intent.(attempts := intent.attempts[k := a]);
    assert IntentOk(w.most, intent) && LinkOk(w.books.contributions, intent);
    UnresolvedIsLast(w.most, intent, k);
    assert !IdsTaken(w.intents, Place(i, k), intent.attempts[k].rowRequestId, intent.attempts[k].transactionId);
    IntentMoves(w, i, k, later, w.books);
    assert WithIntent(w, i, later) == WithIntent(w, i, later).(books := w.books);
  }

  lemma ResumeKeeps(w: World, i: nat, connection: nat, query: Query, reply: Reply, crash: bool)
    requires Protocol(w) && i < |w.intents| && w.intents[i].attempts != []
    requires Unresolved(w.intents[i].attempts[|w.intents[i].attempts| - 1])
    ensures Keeps(w, Resume(w, i, connection, query, reply, crash).0)
  {
    var k := |w.intents[i].attempts| - 1;
    var last := w.intents[i].attempts[k];
    ShapeOf(w, i);
    ResumeOutcomes(w, i, connection, query, reply, crash);
    if Resume(w, i, connection, query, reply, crash).0 == w {
      NothingMoves(w);
    } else if query.FoundPaid? {
      CollectKeeps(w, i, k, query.requestId, query.transactionId);
    } else {
      var a := Ended(last, Failed, query.requestId, query.transactionId).(retryable := !query.permanent);
      FailedQueryKeeps(w, i, connection, a, reply);
    }
  }

  /** A query leaves everything, or collects the attempt, or fails it and perhaps goes on. */
  lemma ResumeOutcomes(w: World, i: nat, connection: nat, query: Query, reply: Reply, crash: bool)
    requires w.books.price > 0 && i < |w.intents| && w.intents[i].attempts != []
    ensures var k := |w.intents[i].attempts| - 1;
            var last := w.intents[i].attempts[k];
            var next := Resume(w, i, connection, query, reply, crash).0;
            next != w ==>
              && last.requestId.Some?
              && (query.FoundPaid? || query.FoundFailed?)
              && (query.FoundPaid? ==> Collect(w, i, k, query.requestId, query.transactionId) == Some(next))
              && (query.FoundFailed? ==>
                    var a := Ended(last, Failed, query.requestId, query.transactionId).(retryable := !query.permanent);
                    var failed := WithIntent(w, i, w.intents[i].(attempts := w.intents[i].attempts[k := a]));
                    && !IdsTaken(w.intents, Place(i, k), a.rowRequestId, a.transactionId)
                    && next == if crash then failed else Continue(failed, i, connection, reply).0)
  {
  }

  lemma FailedQueryKeeps(w: World, i: nat, connection: nat, a: Attempt, reply: Reply)
    requires Protocol(w) && i < |w.intents| && w.intents[i].attempts != []
    requires var k := |w.intents[i].attempts| - 1;
             var last := w.intents[i].attempts[k];
             && Unresolved(last) && last.status != TimedOut && a.status == Failed
             && a.number == last.number && a.connection == last.connection && a.requestId == last.requestId
             && !IdsTaken(w.intents, Place(i, k), a.rowRequestId, a.transactionId)
    ensures var k := |w.intents[i].attempts| - 1;
            var failed := WithIntent(w, i, w.intents[i].(attempts := w.intents[i].attempts[k := a]));
            Keeps(w, failed) && Keeps(w, Continue(failed, i, connection, reply).0)
  {
    var k := |w.intents[i].attempts| - 1;
    var failed := WithIntent(w, i, w.intents[i].(attempts := w.intents[i].attempts[k := a]));
    FailingKeeps(w, i, a);
    ContinueKeeps(failed, i, connection, reply);
    KeepsTwice(w, failed, Continue(failed, i, connection, reply).0);
  }

  lemma StartingKeeps(w: World, i: nat)
    requires Protocol(w) && i < |w.intents| && w.intents[i].status == Pending
    ensures Keeps(w, WithIntent(w, i, w.intents[i].(status := Processing)))
    ensures w.intents[i].attempts == []
  {
    var later := w.intents[i].(status := Processing);
    assert IntentOk(w.most, w.intents[i]) && LinkOk(w.books.contributions, w.intents[i]);
    IntentMoves(w, i, 0, later, w.books);
    assert WithIntent(w, i, later) == WithIntent(w, i, later).(books := w.books);
  }

  lemma FirstAttemptKeeps(w: World, i: nat, connection: nat, reply: Reply)
    requires Protocol(w) && i < |w.intents| && w.intents[i].status == Pending
    ensures var started := WithIntent(w, i, w.intents[i].(status := Processing));
            Keeps(w, started) && Keeps(w, CreateAttempt(started, i, connection, 1, reply).0)
  {
    var started := WithIntent(w, i, w.intents[i].(status := Processing));
    StartingKeeps(w, i);
    CreateAttemptKeeps(started, i, connection, 1, reply);
    KeepsTwice(w, started, CreateAttempt(started, i, connection, 1, reply).0);
  }

  lemma ShapeOf(w: World, i: nat)
    requires Protocol(w) && i < |w.intents|
    ensures IntentOk(w.most, w.intents[i])
  {
  }

  lemma InitiateKeeps(w: World, i: nat, connection: nat, admitted: bool, query: Query, reply: Reply, crash: bool)
    requires Protocol(w)
    ensures Keeps(w, Initiate(w, i, connection, admitted, query, reply, crash).0)
  {
    if Initiate(w, i, connection, admitted, query, reply, crash).0 == w {
      NothingMoves(w);
    } else if w.intents[i].status == Pending {
      StartingKeeps(w, i);
      FirstAttemptKeeps(w, i, connection, reply);
    } else {
      OngoingKeeps(w, i, connection, query, reply, crash);
    }
  }

  lemma OngoingIs(w: World, i: nat, connection: nat, query: Query, reply: Reply, crash: bool)
    requires w.books.price > 0 && i < |w.intents| && w.intents[i].status == Processing && w.intents[i].attempts != []
    requires w.intents[i].attempts[|w.intents[i].attempts| - 1].status != Succeeded
    ensures Initiate(w, i, connection, true, query, reply, crash)
            == if Unresolved(w.intents[i].attempts[|w.intents[i].attempts| - 1])
               then Resume(w, i, connection, query, reply, crash)
               else Continue(w, i, connection, reply)
  {
  }

  lemma OngoingKeeps(w: World, i: nat, connection: nat, query: Query, reply: Reply, crash: bool)
    requires Protocol(w) && i < |w.intents| && w.intents[i].status == Processing && w.intents[i].attempts != []
    ensures Keeps(w, Initiate(w, i, connection, true, query, reply, crash).0)
  {
    ShapeOf(w, i);
    OngoingIs(w, i, connection, query, reply, crash);
    if Unresolved(w.intents[i].attempts[|w.intents[i].attempts| - 1]) {
      ResumeKeeps(w, i, connection, query, reply, crash);
    } else {
      ContinueKeeps(w, i, connection, reply);
    }
  }

  lemma RepairKeeps(w: World, i: nat)
    requires Protocol(w)
    ensures Keeps(w, Repair(w, i).0)
  {
    NothingMoves(w);
    if i < |w.intents| {
      if NeedsRepair(w.intents[i]) {
        ClosingKeeps(w, i);
      } else {
        assert WithIntent(w, i, w.intents[i]) == w;
      }
    }
  }

  // ----- the inbox ------------------------------------------------------------------------------

  lemma StampKeeps(w: World, e: nat, status: EventStatus)
    requires Protocol(w) && e < |w.events| && status != Received
    ensures Keeps(w, Stamp(w, e, status))
  {
  }

  lemma StoringKeeps(w: World, connection: nat, id: Option<EventId>, payload: Payload, status: EventStatus)
    requires Protocol(w) && StoredEvent(w.events, connection, id).None?
    ensures Keeps(w, w.(events := w.events + [Event(connection, id, payload, status)]))
  {
  }

  lemma ThenStamp(w: World, mid: World, e: nat, status: EventStatus)
    requires Keeps(w, mid) && e < |mid.events| && status != Received
    ensures Keeps(w, Stamp(mid, e, status))
  {
  }

  lemma ApplyCallbackKeeps(w: World, e: nat, place: Place, cb: Callback, crash: CrashPoint)
    requires Protocol(w) && e < |w.events|
    requires place.intent < |w.intents| && place.attempt < |w.intents[place.intent].attempts|
    requires Carries(w.intents[place.intent].attempts[place.attempt], cb.requestId, cb.transactionId)
    ensures Keeps(w, ApplyCallback(w, e, place, cb, crash).0)
  {
    var (next, answer) := ApplyCallback(w, e, place, cb, crash);
    if next == w {
      NothingMoves(w);
    } else if next.intents == w.intents && next.books == w.books {
      StampKeeps(w, e, next.events[e].status);
    } else if cb.verdict == Some(Paid) {
      PaidCallbackKeeps(w, e, place, cb);
    } else {
      DeclinedCallbackKeeps(w, e, place);
    }
  }

  /** An attempt that carries a provider id did not time out. */
  lemma ReachableAttempt(w: World, place: Place, requestId: Option<nat>, transactionId: Option<nat>)
    requires Protocol(w) && place.intent < |w.intents| && place.attempt < |w.intents[place.intent].attempts|
    requires var a := w.intents[place.intent].attempts[place.attempt];
             Carries(a, requestId, transactionId) && Unresolved(a)
    ensures w.intents[place.intent].attempts[place.attempt].status == Initiated
    ensures place.attempt == |w.intents[place.intent].attempts| - 1 && w.intents[place.intent].status == Processing
  {
  }

  lemma PaidCallbackKeeps(w: World, e: nat, place: Place, cb: Callback)
    requires Protocol(w) && e < |w.events|
    requires place.intent < |w.intents| && place.attempt < |w.intents[place.intent].attempts|
    requires var a := w.intents[place.intent].attempts[place.attempt];
             Carries(a, cb.requestId, cb.transactionId) && Unresolved(a)
    requires Collect(w, place.intent, place.attempt, None, cb.transactionId).Some?
    ensures var after := Collect(w, place.intent, place.attempt, None, cb.transactionId).value;
            Keeps(w, after) && |after.events| == |w.events| && Keeps(w, Stamp(after, e, Processed))
  {
    ReachableAttempt(w, place, cb.requestId, cb.transactionId);
    CollectKeeps(w, place.intent, place.attempt, None, cb.transactionId);
    ThenStamp(w, Collect(w, place.intent, place.attempt, None, cb.transactionId).value, e, Processed);
  }

  lemma DeclinedCallbackKeeps(w: World, e: nat, place: Place)
    requires Protocol(w) && e < |w.events|
    requires place.intent < |w.intents| && place.attempt < |w.intents[place.intent].attempts|
    requires var a := w.intents[place.intent].attempts[place.attempt];
             Carries(a, a.requestId, a.transactionId) && Unresolved(a)
    ensures var intent := w.intents[place.intent];
            var a := intent.attempts[place.attempt];
            var failed := intent.(attempts := intent.attempts[place.attempt := a.(status := Failed)]);
            Keeps(w, Stamp(WithIntent(w, place.intent, if a.number >= w.most then Closed(failed) else failed), e, Processed))
  {
    var intent := w.intents[place.intent];
    var a := intent.attempts[place.attempt];
    var failed := intent.(attempts := intent.attempts[place.attempt := a.(status := Failed)]);
    ReachableAttempt(w, place, a.requestId, a.transactionId);
    DeclinedKeeps(w, place.intent, a.(status := Failed));
    ThenStamp(w, WithIntent(w, place.intent, if a.number >= w.most then Closed(failed) else failed), e, Processed);
  }

  lemma DeclinedKeeps(w: World, i: nat, a: Attempt)
    requires Protocol(w) && i < |w.intents| && w.intents[i].attempts != []
    requires var last := w.intents[i].attempts[|w.intents[i].attempts| - 1];
             Unresolved(last) && last.status != TimedOut && a == last.(status := Failed)
    ensures var k := |w.intents[i].attempts| - 1;
            var failed := w.intents[i].(attempts := w.intents[i].attempts[k := a]);
            Keeps(w, WithIntent(w, i, failed)) && Keeps(w, WithIntent(w, i, Closed(failed)))
  {
    var k := |w.intents[i].attempts| - 1;
    var failed := w.intents[i].(attempts := w.intents[i].attempts[k := a]);
    var mid := WithIntent(w, i, failed);
    FailingKeeps(w, i, a);
    ClosingKeeps(mid, i);
    assert WithIntent(mid, i, Closed(failed)) == WithIntent(w, i, Closed(failed));
    KeepsTwice(w, mid, WithIntent(w, i, Closed(failed)));
  }

  lemma ProcessCallbackKeeps(w: World, e: nat, connection: nat, cb: Callback, crash: CrashPoint)
    requires Protocol(w) && e < |w.events|
    ensures Keeps(w, ProcessCallback(w, e, connection, cb, crash).0)
  {
    var found := FindAttempt(w.intents, cb);
    if found.Some? && w.intents[found.value.intent].attempts[found.value.attempt].connection == connection {
      ApplyCallbackKeeps(w, e, found.value, cb, crash);
    } else {
      StampKeeps(w, e, Unprocessable);
    }
  }

  lemma DeliverKeeps(w: World, connection: nat, cb: Callback, crash: CrashPoint)
    requires Protocol(w)
    ensures Keeps(w, Deliver(w, connection, cb, crash).0)
  {
    var found := StoredEvent(w.events, connection, CallbackId(cb));
    if found.Some? {
      RedeliveryKeeps(w, found.value, connection, cb, crash);
    } else {
      FirstDeliveryKeeps(w, connection, cb, crash);
    }
  }

  lemma RedeliveryKeeps(w: World, e: nat, connection: nat, cb: Callback, crash: CrashPoint)
    requires Protocol(w) && StoredEvent(w.events, connection, CallbackId(cb)) == Some(e)
    ensures Keeps(w, Deliver(w, connection, cb, crash).0)
  {
    if w.events[e].payload != FromProvider(cb) {
      StampKeeps(w, e, Disagreement);
    } else if w.events[e].status != Received {
      StampKeeps(w, e, Deduplicated);
    } else if crash == AfterStore {
      NothingMoves(w);
    } else {
      ProcessCallbackKeeps(w, e, connection, cb, crash);
    }
  }

  lemma FirstDeliveryKeeps(w: World, connection: nat, cb: Callback, crash: CrashPoint)
    requires Protocol(w) && StoredEvent(w.events, connection, CallbackId(cb)).None?
    ensures Keeps(w, Deliver(w, connection, cb, crash).0)
  {
    var e := |w.events|;
    var stored := w.(events := w.events + [Event(connection, CallbackId(cb), FromProvider(cb), Received)]);
    StoringKeeps(w, connection, CallbackId(cb), FromProvider(cb), Received);
    if crash != AfterStore {
      if cb.eventId.None? || cb.verdict.None? {
        ThenStamp(w, stored, e, Unprocessable);
      } else {
        ProcessCallbackKeeps(stored, e, connection, cb, crash);
        KeepsTwice(w, stored, ProcessCallback(stored, e, connection, cb, crash).0);
      }
    }
  }

  // ----- Paybill --------------------------------------------------------------------------------

  /** The books move while intents and events stay. */
  lemma BooksMove(w: World, books: B.Books)
    requires Protocol(w) && books.price == w.books.price
    requires ContributionsAdvance(w.books.contributions, books.contributions)
    ensures Keeps(w, w.(books := books))
  {
  }

  lemma SettleConfirmationAdvances(b: B.Books, note: Paybill, member: Option<nat>, period: int, lostRace: bool)
    requires b.price > 0
    ensures var after := SettleConfirmation(b, note, member, period, lostRace).0;
            after.price == b.price && ContributionsAdvance(b.contributions, after.contributions)
  {
  }

  lemma ConfirmPaybillKeeps(
      w: World, connection: nat, fits: bool, note: Paybill, member: Option<nat>, period: int, lostRace: bool, crash: CrashPoint)
    requires Protocol(w)
    ensures Keeps(w, ConfirmPaybill(w, connection, fits, note, member, period, lostRace, crash).0)
  {
    var found := StoredEvent(w.events, connection, PaybillId(note));
    if found.Some? {
      StampKeeps(w, found.value, Disagreement);
      StampKeeps(w, found.value, Deduplicated);
    } else {
      var status := if !fits || !note.readable then Unprocessable else Received;
      var stored := w.(events := w.events + [Event(connection, PaybillId(note), FromPaybill(note), status)]);
      StoringKeeps(w, connection, PaybillId(note), FromPaybill(note), status);
      var (books, outcome) := SettleConfirmation(w.books, note, member, period, lostRace);
      SettleConfirmationAdvances(w.books, note, member, period, lostRace);
      BooksMove(stored, books);
      KeepsTwice(w, stored, stored.(books := books));
      ThenStamp(w, stored.(books := books), |w.events|, outcome);
    }
  }
}
