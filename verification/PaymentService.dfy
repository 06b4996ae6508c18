/** The payment-intent, webhook and Paybill services, proved against Payments. */
module Collecting {
  import opened Wrappers
  import opened Ledger
  import B = Books
  import opened Reconciliation
  import opened Database
  import opened Contributing
  import opened Payments

  class PaymentService {
    const db: Session
    const contributions: ContributionService
    const most: nat
    var intents: seq<Intent>
    var events: seq<Event>

    constructor (db: Session, most: nat)
      ensures this.db == db && this.most == most && contributions.db == db && intents == [] && events == []
    {
      this.db, this.most := db, most;
      contributions := new ContributionService(db);
      intents, events := [], [];
    }

    function Committed(): World
      reads this, db, db.ledger
    {
      World(db.Committed(), intents, events, most)
    }

    /** What every request relies on: it is wired to one session, whose contributions agree with their postings. */
    ghost predicate Ready()
      reads this, db, db.ledger
    {
      && contributions.db == db && db.price > 0
      && db.ledger.accounts == B.Chart(db.chama) && ContributionsOk(db.ledger.txs, db.contributions)
      && Find(db.ledger.txs, Source(ContributionConfirmation, |db.contributions|)).None?
    }

    // ----- intents and attempts -----------------------------------------------------------------

    method CreateIntent(ask: Ask) returns (answer: Answer)
      modifies this
      ensures (Committed(), answer) == Create(old(Committed()), ask)
    {
      if ask.contribution.Some? {
        var c := ask.contribution.value;
        if c >= |db.contributions| || db.contributions[c].member != ask.member {
          return Raised;
        }
        if db.contributions[c].status != B.Pending || ask.amount != db.contributions[c].amount {
          return Raised;
        }
      }
      var existing := FindKey(intents, ask.key);
      if existing.Some? {
        if intents[existing.value].ask != ask {
          return Raised;
        }
        return IntentIs(existing.value);
      }
      if ask.amount <= 0 {
        return Raised;
      }
      intents := intents + [Intent(ask, Pending, [])];
      return IntentIs(|intents| - 1);
    }

    /** Confirm and post the linked contribution; posted says whether the ledger committed. */
    method SettleLinkedContribution(ask: Ask) returns (settled: bool, posted: bool)
      requires Ready()
      modifies db, db.ledger
      ensures settled == SettleLinked(old(db.Committed()), ask).Some?
      ensures db.Committed() == if settled then SettleLinked(old(db.Committed()), ask).value else old(db.Committed())
      ensures posted <==> db.Committed() != old(db.Committed())
    {
      if ask.contribution.None? {
        return true, false;
      }
      var c := ask.contribution.value;
      if c >= |db.contributions| || db.contributions[c].member != ask.member {
        return false, false;
      }
      var wasPending := db.contributions[c].status == B.Pending;
      var r := contributions.Settle(c, true);
      assert r == B.Done && wasPending ==> db.contributions[c].status == B.Confirmed;
      return r == B.Done, r == B.Done && wasPending;
    }

    /** Ask the provider once and record the attempt with the outcome. */
    method CreateAttempt(i: nat, connection: nat, number: nat, reply: Reply) returns (answer: Answer)
      requires i < |intents|
      modifies this`intents
      ensures (Committed(), answer) == Payments.CreateAttempt(old(Committed()), i, connection, number, reply)
    {
      var attempt := Attempt(number, connection, Initiated, false, None, None, None);
      match reply {
        case NoReply => attempt := attempt.(status := TimedOut, retryable := true);
        case Refused(retryable) => attempt := attempt.(status := Failed, retryable := retryable);
        case Accepted(requestId, transactionId) =>
          attempt := attempt.(requestId := requestId, rowRequestId := requestId, transactionId := transactionId);
      }
      var pending := intents[i];
      if IdsTaken(intents, Place(i, |pending.attempts|), attempt.rowRequestId, attempt.transactionId) {
        return Raised;
      }
      answer := AttemptIs(|pending.attempts|);
      pending := pending.(attempts := pending.attempts + [attempt]);
      if attempt.status == Failed && !attempt.retryable && pending.status == Processing {
        pending := pending.(status := Lost);
      }
      intents := intents[i := pending];
    }

    /** An attempt succeeds: status, intent and settlement in one commit; an error rolls all of it back. */
    method ResolveSuccess(
        i: nat, k: nat, requestId: Option<nat>, transactionId: Option<nat>)
      returns (resolved: bool, posted: bool, pending: Intent)
      requires Ready() && i < |intents| && k < |intents[i].attempts|
      modifies db, db.ledger
      ensures resolved == Collect(old(Committed()), i, k, requestId, transactionId).Some?
      ensures intents == old(intents) && events == old(events)
      ensures if resolved
              then WithIntent(Committed(), i, pending) == Collect(old(Committed()), i, k, requestId, transactionId).value
              else Committed() == old(Committed())
      ensures posted <==> db.Committed() != old(db.Committed())
    {
      var intent := intents[i];
      var attempt := intent.attempts[k].(status := Succeeded);
      if requestId.Some? {
        attempt := attempt.(rowRequestId := requestId);
      }
      if transactionId.Some? {
        attempt := attempt.(transactionId := transactionId);
      }
      pending := intent.(attempts := intent.attempts[k := attempt]);
      if IdsTaken(intents, Place(i, k), attempt.rowRequestId, attempt.transactionId) {
        return false, false, intent;
      }
      if pending.status == Processing {
        pending := pending.(status := Collected);
      }
      resolved, posted := SettleLinkedContribution(intent.ask);
    }

    /** An attempt fails: a commit of its own. */
    method ResolveFailure(i: nat, k: nat, permanent: bool, requestId: Option<nat>, transactionId: Option<nat>)
      returns (resolved: bool)
      requires i < |intents| && k < |intents[i].attempts|
      modifies this`intents
      ensures var was := old(intents)[i];
              var a := Ended(was.attempts[k], Failed, requestId, transactionId).(retryable := !permanent);
              && resolved == !IdsTaken(old(intents), Place(i, k), a.rowRequestId, a.transactionId)
              && intents == if resolved then old(intents)[i := was.(attempts := was.attempts[k := a])] else old(intents)
    {
      var attempt := intents[i].attempts[k].(status := Failed, retryable := !permanent);
      if requestId.Some? {
        attempt := attempt.(rowRequestId := requestId);
      }
      if transactionId.Some? {
        attempt := attempt.(transactionId := transactionId);
      }
      if IdsTaken(intents, Place(i, k), attempt.rowRequestId, attempt.transactionId) {
        return false;
      }
      intents := intents[i := intents[i].(attempts := intents[i].attempts[k := attempt])];
      return true;
    }

    /** After a failed last attempt: give up, or try once more. */
    method ContinueFailed(i: nat, connection: nat, reply: Reply) returns (answer: Answer)
      requires i < |intents| && intents[i].attempts != []
      modifies this`intents
      ensures (Committed(), answer) == Continue(old(Committed()), i, connection, reply)
    {
      var intent := intents[i];
      var last := intent.attempts[|intent.attempts| - 1];
      if last.number >= most || !last.retryable {
        assert intents[i := intent] == intents;
        if intent.status == Processing {
          intents := intents[i := intent.(status := Lost)];
        }
        return Raised;
      }
      answer := CreateAttempt(i, connection, last.number + 1, reply);
    }

    /** Query an attempt whose outcome is unknown; go on only once it is known to have failed. */
    method QueryAndResolve(i: nat, connection: nat, query: Query, reply: Reply, crash: bool) returns (answer: Answer)
      requires Ready() && i < |intents| && intents[i].attempts != []
      modifies this`intents, db, db.ledger
      ensures (Committed(), answer) == Resume(old(Committed()), i, connection, query, reply, crash)
    {
      var k := |intents[i].attempts| - 1;
      var last := intents[i].attempts[k];
      if last.requestId.None? || query.NoAnswer? || query.NotFinal? {
        return AttemptIs(k);
      }
      if query.FoundPaid? {
        var resolved, posted, pending := ResolveSuccess(i, k, query.requestId, query.transactionId);
        if !resolved {
          return Raised;
        }
        intents := intents[i := pending];
        return AttemptIs(k);
      }
      var resolved := ResolveFailure(i, k, query.permanent, query.requestId, query.transactionId);
      if !resolved {
        return Raised;
      }
      if crash {
        return Crashed;
      }
      answer := ContinueFailed(i, connection, reply);
    }

    method InitiatePayment(
        i: nat, connection: nat, admitted: bool, query: Query, reply: Reply, crash: bool) returns (answer: Answer)
      requires Ready()
      modifies this`intents, db, db.ledger
      ensures (Committed(), answer) == Initiate(old(Committed()), i, connection, admitted, query, reply, crash)
    {
      if i >= |intents| {
        return Raised;
      }
      var intent := intents[i];
      var n := |intent.attempts|;
      if intent.status == Lost {
        return Raised;
      }
      if intent.status == Collected {
        return if n > 0 then AttemptIs(n - 1) else Raised;
      }
      if !admitted {
        return Raised;
      }
      if n == 0 {
        if intent.status != Pending {
          return Raised;
        }
        intents := intents[i := intent.(status := Processing)];
        if crash {
          return Crashed;
        }
        answer := CreateAttempt(i, connection, 1, reply);
        return;
      }
      if intent.attempts[n - 1].status == Succeeded {
        return AttemptIs(n - 1);
      }
      if Unresolved(intent.attempts[n - 1]) {
        answer := QueryAndResolve(i, connection, query, reply, crash);
        return;
      }
      answer := ContinueFailed(i, connection, reply);
    }

    method RepairIntent(i: nat) returns (answer: Answer)
      modifies this`intents
      ensures (Committed(), answer) == Repair(old(Committed()), i)
    {
      if i >= |intents| {
        return Raised;
      }
      assert intents[i := intents[i]] == intents;
      if intents[i].status == Processing && intents[i].attempts != [] {
        var last := intents[i].attempts[|intents[i].attempts| - 1];
        if last.status == Failed && !last.retryable {
          intents := intents[i := intents[i].(status := Lost)];
        }
      }
      return Served;
    }

    /** Listing intents repairs every one whose last attempt was rejected for good, and only those. */
    method ListIntents()
      modifies this`intents
      ensures |intents| == |old(intents)|
      ensures forall j :: 0 <= j < |intents| ==>
                intents[j] == if NeedsRepair(old(intents)[j]) then Closed(old(intents)[j]) else old(intents)[j]
    {
      for j := 0 to |intents|
        invariant |intents| == |old(intents)|
        invariant forall x :: 0 <= x < j ==>
                    intents[x] == if NeedsRepair(old(intents)[x]) then Closed(old(intents)[x]) else old(intents)[x]
        invariant forall x :: j <= x < |intents| ==> intents[x] == old(intents)[x]
      {
        var answer := RepairIntent(j);
      }
    }

    // ----- the webhook inbox --------------------------------------------------------------------

    method Mark(e: nat, status: EventStatus) returns (answer: Answer)
      requires e < |events|
      modifies this`events
      ensures (Committed(), answer) == (Stamp(old(Committed()), e, status), EventIs(e))
    {
      events := events[e := events[e].(status := status)];
      return EventIs(e);
    }

    /** The checks that settle an event without touching its attempt. */
    method Classify(place: Place, cb: Callback) returns (status: Option<EventStatus>)
      requires place.intent < |intents| && place.attempt < |intents[place.intent].attempts|
      ensures status == Verdict(old(Committed()), place, cb)
    {
      var intent := intents[place.intent];
      var attempt := intent.attempts[place.attempt];
      if cb.amount.Some? && cb.amount.value != intent.ask.amount {
        return Some(Disagreement);
      }
      if cb.currency.Some? && cb.currency.value != intent.ask.currency {
        return Some(Disagreement);
      }
      if cb.verdict !in {Some(Paid), Some(Declined)} {
        return Some(Unprocessable);
      }
      if attempt.status == Succeeded {
        return Some(if cb.verdict == Some(Paid) then Processed else Disagreement);
      }
      if attempt.status == Failed {
        return Some(if cb.verdict == Some(Declined) then Processed else Disagreement);
      }
      return None;
    }

    method ApplyPaid(e: nat, place: Place, cb: Callback, crash: CrashPoint) returns (answer: Answer)
      requires Ready() && e < |events| && place.intent < |intents| && place.attempt < |intents[place.intent].attempts|
      modifies this, db, db.ledger
      ensures (Committed(), answer) == Payments.ApplyPaid(old(Committed()), e, place, cb, crash)
    {
      var resolved, posted, pending := ResolveSuccess(place.intent, place.attempt, None, cb.transactionId);
      if !resolved {
        return Raised;
      }
      if crash == AfterPosting && !posted {
        return Crashed;
      }
      intents := intents[place.intent := pending];
      if crash == AfterPosting {
        return Crashed;
      }
      answer := Mark(e, Processed);
    }

    method ApplyCallback(e: nat, place: Place, cb: Callback, crash: CrashPoint) returns (answer: Answer)
      requires Ready() && e < |events| && place.intent < |intents| && place.attempt < |intents[place.intent].attempts|
      modifies this, db, db.ledger
      ensures (Committed(), answer) == Payments.ApplyCallback(old(Committed()), e, place, cb, crash)
    {
      var status := Classify(place, cb);
      if status.Some? {
        answer := Mark(e, status.value);
        return;
      }
      if cb.verdict == Some(Paid) {
        answer := ApplyPaid(e, place, cb, crash);
        return;
      }
      var intent := intents[place.intent];
      var attempt := intent.attempts[place.attempt];
      intent := intent.(attempts := intent.attempts[place.attempt := attempt.(status := Failed)]);
      if attempt.number >= most && intent.status == Processing {
        intent := intent.(status := Lost);
      }
      intents := intents[place.intent := intent];
      answer := Mark(e, Processed);
    }

    method Process(e: nat, connection: nat, cb: Callback, crash: CrashPoint) returns (answer: Answer)
      requires Ready() && e < |events|
      modifies this, db, db.ledger
      ensures (Committed(), answer) == ProcessCallback(old(Committed()), e, connection, cb, crash)
    {
      var place := FindAttempt(intents, cb);
      if place.None? || intents[place.value.intent].attempts[place.value.attempt].connection != connection {
        answer := Mark(e, Unprocessable);
        return;
      }
      answer := ApplyCallback(e, place.value, cb, crash);
    }

    method Handle(connection: nat, cb: Callback, crash: CrashPoint) returns (answer: Answer)
      requires Ready()
      modifies this, db, db.ledger
      ensures (Committed(), answer) == Deliver(old(Committed()), connection, cb, crash)
    {
      var existing := StoredEvent(events, connection, CallbackId(cb));
      if existing.Some? {
        var e := existing.value;
        if events[e].payload != FromProvider(cb) {
          answer := Mark(e, Disagreement);
          return;
        }
        if events[e].status != Received {
          answer := Mark(e, Deduplicated);
          return;
        }
        if crash == AfterStore {
          return Crashed;
        }
        answer := Process(e, connection, cb, crash);
        return;
      }
      var e := |events|;
      events := events + [Event(connection, CallbackId(cb), FromProvider(cb), Received)];
      if crash == AfterStore {
        return Crashed;
      }
      if cb.eventId.None? || cb.verdict.None? {
        answer := Mark(e, Unprocessable);
        return;
      }
      answer := Process(e, connection, cb, crash);
    }

    // ----- Paybill ------------------------------------------------------------------------------

    method Confirm(
        connection: nat, fits: bool, note: Paybill, member: Option<nat>, period: int, lostRace: bool,
        crash: CrashPoint)
      returns (answer: Answer)
      requires Ready()
      modifies this`events, db, db.ledger
      ensures (Committed(), answer) == ConfirmPaybill(old(Committed()), connection, fits, note, member, period, lostRace, crash)
    {
      var existing := StoredEvent(events, connection, PaybillId(note));
      if existing.Some? {
        answer := Mark(existing.value, if events[existing.value].payload != FromPaybill(note) then Disagreement else Deduplicated);
        return;
      }
      var e := |events|;
      var unfit := !fits || !note.readable;
      events := events + [Event(connection, PaybillId(note), FromPaybill(note), if unfit then Unprocessable else Received)];
      if crash == AfterStore {
        return Crashed;
      }
      if unfit {
        return EventIs(e);
      }
      var status := SettlePaybill(note, member, period, lostRace);
      if crash == AfterPosting {
        return Crashed;
      }
      answer := Mark(e, status);
    }

    method SettlePaybill(note: Paybill, member: Option<nat>, period: int, lostRace: bool) returns (status: EventStatus)
      requires Ready()
      modifies db, db.ledger
      ensures (db.Committed(), status) == SettleConfirmation(old(db.Committed()), note, member, period, lostRace)
    {
      if note.amount.None? || note.amount.value <= 0 || note.number.None? || member.None? {
        return Disagreement;
      }
      var open := FindOpen(db.contributions, member.value, period);
      if open.None? {
        if lostRace {
          return Disagreement;
        }
        var recorded := contributions.Record(member.value, note.amount.value, period);
        var settled := contributions.Settle(|db.contributions| - 1, true);
        return Processed;
      }
      var c := open.value;
      if db.contributions[c].amount != note.amount.value {
        return Disagreement;
      }
      var settled := contributions.Settle(c, true);
      return Processed;
    }
  }
}
