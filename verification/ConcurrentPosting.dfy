/**
 Any number of sessions posting at once under read-committed visibility. Each session runs the
 statements of the posting path one at a time: look up the source, check the reversal reference,
 insert and commit, and after an integrity error roll back and look the source up again. The unique
 indexes on the source and on the reversed transaction are the only synchronisation.
 */
module ConcurrentPosting {
  import opened Wrappers
  import opened Ledger

  datatype Phase =
    | Arrived
    | SourceUnseen(t: Transaction)
    | Cleared(t: Transaction)
    | RolledBack(t: Transaction)
    | Done(result: Posted)

  /** A session, with the committed store that its look-up and its reference check read, once they have run. */
  datatype Poster = Poster(
    request: Request, phase: Phase, atLookUp: Option<seq<Transaction>>, atReference: Option<seq<Transaction>>)

  datatype World = World(txs: seq<Transaction>, posters: seq<Poster>)

  predicate UniqueIndexesAllow(txs: seq<Transaction>, t: Transaction) {
    Find(txs, t.source).None? && (t.reverses.Some? ==> !IsReversed(txs, t.reverses.value))
  }

  function LookUp(txs: seq<Transaction>, t: Transaction, absent: Phase): Phase {
    match Find(txs, t.source)
    case Some(k) => Done(Resolve(txs[k], k, t))
    case None => absent
  }

  function NextPhase(accounts: set<Account>, txs: seq<Transaction>, p: Poster): Phase {
    match p.phase
    case Arrived =>
      (match Prepare(accounts, p.request)
       case Failure(e) => Done(Failure(e))
       case Success(t) => LookUp(txs, t, SourceUnseen(t)))
    case SourceUnseen(t) =>
      if ReferenceFault(txs, t).Some? then Done(Failure(ReferenceFault(txs, t).value)) else Cleared(t)
    case Cleared(t) =>
      if UniqueIndexesAllow(txs, t) then Done(Success(|txs|)) else RolledBack(t)
    case RolledBack(t) => LookUp(txs, t, Done(Failure(ConstraintViolated)))
    case Done(_) => p.phase
  }

  /** The session after its next statement. */
  function Next(accounts: set<Account>, txs: seq<Transaction>, p: Poster): Poster {
    Poster(p.request, NextPhase(accounts, txs, p),
           if p.phase.Arrived? then Some(txs) else p.atLookUp,
           if p.phase.SourceUnseen? then Some(txs) else p.atReference)
  }

  /** The store that a session's next statement leaves behind. */
  function StoreAfter(txs: seq<Transaction>, p: Poster): seq<Transaction> {
    if p.phase.Cleared? && UniqueIndexesAllow(txs, p.phase.t) then txs + [p.phase.t] else txs
  }

  /** Session i executes its next statement. */
  function Step(accounts: set<Account>, w: World, i: nat): (next: World)
    ensures |next.posters| == |w.posters|
  {
    if i >= |w.posters| then w
    else World(StoreAfter(w.txs, w.posters[i]), w.posters[i := Next(accounts, w.txs, w.posters[i])])
  }

  function Run(accounts: set<Account>, w: World, schedule: seq<nat>): (end: World)
    ensures |end.posters| == |w.posters|
  {
    if schedule == [] then w
    else Step(accounts, Run(accounts, w, schedule[..|schedule| - 1]), schedule[|schedule| - 1])
  }

  function Start(txs: seq<Transaction>, requests: seq<Request>): (w: World)
    ensures |w.posters| == |requests|
  {
    World(txs, seq(|requests|, i requires 0 <= i < |requests| => Poster(requests[i], Arrived, None, None)))
  }

  // ----- what a session has been told, and why --------------------------------------------------

  /** Another source's transaction reverses the same target. */
  ghost predicate ReversedElsewhere(txs: seq<Transaction>, t: Transaction) {
    t.reverses.Some? && exists k :: 0 <= k < |txs| && txs[k].reverses == t.reverses && txs[k].source != t.source
  }

  /** The stored transaction of this source, resolved against the payload. */
  ghost predicate Resolved(txs: seq<Transaction>, t: Transaction, r: Posted) {
    Find(txs, t.source).Some? && r == Resolve(txs[Find(txs, t.source).value], Find(txs, t.source).value, t)
  }

  /**
   What a finished session was told. Its look-up found the source; or its reference check failed; or its
   insert went in, or lost against the source or against another reversal of its target.
   */
  ghost predicate Answered(accounts: set<Account>, txs: seq<Transaction>, p: Poster, r: Posted) {
    match Prepare(accounts, p.request)
    case Failure(e) => r == Failure(e)
    case Success(t) =>
      && p.atLookUp.Some?
      && if p.atReference.None? then Find(p.atLookUp.value, t.source).Some? && Resolved(txs, t, r)
         else
           && Find(p.atLookUp.value, t.source).None?
           && match ReferenceFault(p.atReference.value, t)
              case Some(e) => r == Failure(e)
              case None => Resolved(txs, t, r) || (r == Failure(ConstraintViolated) && ReversedElsewhere(txs, t))
  }

  /** Nothing read is ever unwritten, and a session gets past a read only when it found what it should. */
  ghost predicate PosterOk(accounts: set<Account>, txs: seq<Transaction>, p: Poster) {
    && (p.atLookUp.Some? ==> p.atLookUp.value <= txs)
    && (p.atReference.Some? ==> p.atLookUp.Some? && p.atLookUp.value <= p.atReference.value <= txs)
    && match p.phase
       case Arrived => p.atLookUp.None? && p.atReference.None?
       case SourceUnseen(t) => LookedUp(accounts, p, t) && p.atReference.None?
       case Cleared(t) => Passed(accounts, p, t)
       case RolledBack(t) => Passed(accounts, p, t) && !UniqueIndexesAllow(txs, t)
       case Done(r) => Answered(accounts, txs, p, r)
  }

  ghost predicate LookedUp(accounts: set<Account>, p: Poster, t: Transaction) {
    Prepare(accounts, p.request) == Success(t) && p.atLookUp.Some? && Find(p.atLookUp.value, t.source).None?
  }

  ghost predicate Passed(accounts: set<Account>, p: Poster, t: Transaction) {
    LookedUp(accounts, p, t) && p.atReference.Some? && ReferenceFault(p.atReference.value, t).None?
  }

  ghost predicate Consistent(accounts: set<Account>, w: World) {
    && WellFormed(accounts, w.txs)
    && (forall i :: 0 <= i < |w.posters| ==> PosterOk(accounts, w.txs, w.posters[i]))
  }

  lemma FoundStaysFound(txs: seq<Transaction>, t: Transaction, source: Source)
    requires Find(txs, source).Some?
    ensures Find(txs + [t], source) == Find(txs, source)
  {
    FindAfterAppend(txs, t, source);
  }

  lemma ReversedStaysReversed(txs: seq<Transaction>, t: Transaction, s: Transaction)
    ensures s.reverses.Some? && IsReversed(txs, s.reverses.value) ==> IsReversed(txs + [t], s.reverses.value)
    ensures ReversedElsewhere(txs, s) ==> ReversedElsewhere(txs + [t], s)
  {
    if s.reverses.Some? && IsReversed(txs, s.reverses.value) {
      var k :| 0 <= k < |txs| && txs[k].reverses == s.reverses;
      assert (txs + [t])[k].reverses == s.reverses;
    }
    if ReversedElsewhere(txs, s) {
      var k :| 0 <= k < |txs| && txs[k].reverses == s.reverses && txs[k].source != s.source;
      assert (txs + [t])[k].reverses == s.reverses;
    }
  }

  /** Appending never invalidates what another session has seen or been told. */
  lemma OthersAreUndisturbed(accounts: set<Account>, txs: seq<Transaction>, t: Transaction, p: Poster)
    requires PosterOk(accounts, txs, p)
    ensures PosterOk(accounts, txs + [t], p)
  {
    if Prepare(accounts, p.request).Success? {
      var mine := Prepare(accounts, p.request).value;
      ReversedStaysReversed(txs, t, mine);
      if Find(txs, mine.source).Some? {
        FoundStaysFound(txs, t, mine.source);
      }
    }
  }

  /** A refused insert of a free source lost against another reversal of its target. */
  lemma LostAgainstAnotherReversal(txs: seq<Transaction>, t: Transaction)
    requires !UniqueIndexesAllow(txs, t) && Find(txs, t.source).None?
    ensures ReversedElsewhere(txs, t)
  {
    var k :| 0 <= k < |txs| && txs[k].reverses == Some(t.reverses.value);
  }

  lemma InsertIsSound(accounts: set<Account>, txs: seq<Transaction>, p: Poster)
    requires WellFormed(accounts, txs) && p.phase.Cleared? && PosterOk(accounts, txs, p) && UniqueIndexesAllow(txs, p.phase.t)
    ensures WellFormed(accounts, StoreAfter(txs, p))
    ensures PosterOk(accounts, StoreAfter(txs, p), Next(accounts, txs, p))
  {
    PreparedIsSound(accounts, p.request);
    InsertKeepsWellFormed(accounts, txs, p.atReference.value, p.phase.t);
    InsertedIsAnswered(accounts, txs, p, p.phase.t);
  }

  lemma InsertedIsAnswered(accounts: set<Account>, txs: seq<Transaction>, p: Poster, t: Transaction)
    requires p.phase == Cleared(t) && PosterOk(accounts, txs, p) && UniqueIndexesAllow(txs, t)
    requires Find(txs + [t], t.source) == Some(|txs|)
    ensures PosterOk(accounts, txs + [t], Next(accounts, txs, p))
  {
    assert Resolve(t, |txs|, t) == Success(|txs|);
    assert Resolved(txs + [t], t, Success(|txs|));
  }

  lemma InsertKeepsWellFormed(accounts: set<Account>, txs: seq<Transaction>, before: seq<Transaction>, t: Transaction)
    requires WellFormed(accounts, txs) && before <= txs && ReferenceFault(before, t).None? && UniqueIndexesAllow(txs, t)
    requires Balanced(accounts, t.chama, t.lines) && (t.reverses.Some? <==> t.source.kind == LedgerReversal)
    ensures WellFormed(accounts, txs + [t]) && Find(txs + [t], t.source) == Some(|txs|)
  {
    TargetStays(before, txs, t);
    AppendKeepsWellFormed(accounts, txs, t);
    FindAfterAppend(txs, t, t.source);
  }

  /** A target that passed the reference check is still there, and nothing but a reversal of it can have come since. */
  lemma TargetStays(before: seq<Transaction>, txs: seq<Transaction>, t: Transaction)
    requires before <= txs && ReferenceFault(before, t).None?
    ensures ReferenceFault(txs, t).None? || (ReferenceFault(txs, t) == Some(AlreadyReversed) && IsReversed(txs, t.reverses.value))
  {
  }

  lemma StatementIsSound(accounts: set<Account>, txs: seq<Transaction>, p: Poster)
    requires WellFormed(accounts, txs) && PosterOk(accounts, txs, p)
    ensures WellFormed(accounts, StoreAfter(txs, p))
    ensures PosterOk(accounts, StoreAfter(txs, p), Next(accounts, txs, p))
  {
    if p.phase.Cleared? && UniqueIndexesAllow(txs, p.phase.t) {
      InsertIsSound(accounts, txs, p);
    } else if p.phase.RolledBack? && Find(txs, p.phase.t.source).None? {
      LostAgainstAnotherReversal(txs, p.phase.t);
    }
  }

  lemma StepIsConsistent(accounts: set<Account>, w: World, i: nat)
    requires Consistent(accounts, w)
    ensures Consistent(accounts, Step(accounts, w, i))
    ensures w.txs <= Step(accounts, w, i).txs
    ensures forall j :: 0 <= j < |w.posters| ==> Step(accounts, w, i).posters[j].request == w.posters[j].request
  {
    if i < |w.posters| {
      var p := w.posters[i];
      StatementIsSound(accounts, w.txs, p);
      forall j | 0 <= j < |w.posters| && j != i
        ensures PosterOk(accounts, StoreAfter(w.txs, p), w.posters[j])
      {
        if StoreAfter(w.txs, p) != w.txs {
          OthersAreUndisturbed(accounts, w.txs, p.phase.t, w.posters[j]);
        }
      }
    }
  }

  lemma {:induction false} RunIsConsistent(accounts: set<Account>, w: World, schedule: seq<nat>)
    requires Consistent(accounts, w)
    ensures var end := Run(accounts, w, schedule);
            && Consistent(accounts, end) && w.txs <= end.txs
            && (forall j :: 0 <= j < |w.posters| ==> end.posters[j].request == w.posters[j].request)
  {
    if schedule != [] {
      RunIsConsistent(accounts, w, schedule[..|schedule| - 1]);
      StepIsConsistent(accounts, Run(accounts, w, schedule[..|schedule| - 1]), schedule[|schedule| - 1]);
    }
  }

  // ----- postings that reverse nothing ----------------------------------------------------------

  /**
   Posting linearises. Whatever the interleaving of any number of sessions, every valid posting that
   reverses nothing and has finished sees one stored transaction for its source, and was told exactly
   what a later sequential retry would be told: that transaction's id when Chama, description,
   reversal reference and the multiset of quantised lines match, and a conflict otherwise.
   */
  lemma PostingLinearises(
      accounts: set<Account>, txs: seq<Transaction>, requests: seq<Request>, schedule: seq<nat>, i: nat)
    requires WellFormed(accounts, txs) && i < |requests|
    requires Prepare(accounts, requests[i]).Success? && requests[i].reverses.None?
    requires Run(accounts, Start(txs, requests), schedule).posters[i].phase.Done?
    ensures var end := Run(accounts, Start(txs, requests), schedule);
            var stored := Find(end.txs, requests[i].source);
            && WellFormed(accounts, end.txs) && txs <= end.txs
            && stored.Some?
            && (forall k :: 0 <= k < |end.txs| && end.txs[k].source == requests[i].source ==> k == stored.value)
            && end.posters[i].phase.result == Post(accounts, end.txs, requests[i]).0
            && (end.posters[i].phase.result == Success(stored.value) <==>
                  var mine, kept := Prepare(accounts, requests[i]).value, end.txs[stored.value];
                  kept.chama == mine.chama && kept.memo == mine.memo && kept.reverses.None?
                  && multiset(kept.lines) == multiset(mine.lines))
  {
    RunIsConsistent(accounts, Start(txs, requests), schedule);
    var end := Run(accounts, Start(txs, requests), schedule);
    assert PosterOk(accounts, end.txs, end.posters[i]);
    PreparedIsSound(accounts, requests[i]);
  }

  // ----- reversals ------------------------------------------------------------------------------

  /** A reversal of the target was inserted after the session's look-up and before its reference check. */
  ghost predicate ReversedInBetween(p: Poster, target: nat) {
    p.atReference.Some? && p.atLookUp.Some?
    && IsReversed(p.atReference.value, target) && !IsReversed(p.atLookUp.value, target)
  }

  /**
   What a finished reversing session knows. The target has at most one reversal. An id is only ever the id of
   the stored transaction of its source, with a matching payload; "already reversed" is only said when a
   reversal of the target is stored, and "constraint violated" only when another source holds it.
   */
  lemma ReversingPosterIsToldTheTruth(
      accounts: set<Account>, txs: seq<Transaction>, requests: seq<Request>, schedule: seq<nat>, i: nat)
    requires WellFormed(accounts, txs) && i < |requests|
    requires Prepare(accounts, requests[i]).Success? && requests[i].reverses.Some?
    requires Run(accounts, Start(txs, requests), schedule).posters[i].phase.Done?
    ensures var end := Run(accounts, Start(txs, requests), schedule);
            var t := Prepare(accounts, requests[i]).value;
            var target := requests[i].reverses.value;
            var r := end.posters[i].phase.result;
            && t.reverses == Some(target)
            && (forall j, k :: 0 <= j < k < |end.txs| && end.txs[j].reverses == Some(target) ==> end.txs[k].reverses != Some(target))
            && (r.Success? ==> Find(end.txs, t.source) == Some(r.value) && r == Resolve(end.txs[r.value], r.value, t))
            && (r == Failure(AlreadyReversed) ==> IsReversed(end.txs, target))
            && (r == Failure(ConstraintViolated) ==> ReversedElsewhere(end.txs, t))
  {
    RunIsConsistent(accounts, Start(txs, requests), schedule);
    var end := Run(accounts, Start(txs, requests), schedule);
    PreparedIsSound(accounts, requests[i]);
    FinishedReversal(accounts, end.txs, end.posters[i]);
  }

  lemma FinishedReversal(accounts: set<Account>, txs: seq<Transaction>, p: Poster)
    requires PosterOk(accounts, txs, p) && p.phase.Done? && Prepare(accounts, p.request).Success?
    requires Prepare(accounts, p.request).value.reverses.Some?
    ensures var t := Prepare(accounts, p.request).value;
            var r := p.phase.result;
            && (r.Success? ==> Find(txs, t.source) == Some(r.value) && r == Resolve(txs[r.value], r.value, t))
            && (r == Failure(AlreadyReversed) ==> IsReversed(txs, t.reverses.value))
            && (r == Failure(ConstraintViolated) ==> ReversedElsewhere(txs, t))
  {
    var t := Prepare(accounts, p.request).value;
    if p.atReference.Some? && ReferenceFault(p.atReference.value, t) == Some(AlreadyReversed) {
      var k :| 0 <= k < |p.atReference.value| && p.atReference.value[k].reverses == Some(t.reverses.value);
      assert txs[k].reverses == t.reverses;
    }
  }

  /** The session's reference check ran before its target was stored. */
  ghost predicate TargetUnseen(p: Poster, target: nat) {
    p.atReference.Some? && target >= |p.atReference.value|
  }

  /**
   Reversals do not linearise. A session whose payload matches the stored reversal of its target is told that
   reversal's id, as a later sequential retry would be, if and only if no reversal of the target came in between its
   look-up and its reference check and that check did not run before the target was stored.
   */
  lemma MatchingReversalGetsTheIdIff(
      accounts: set<Account>, txs: seq<Transaction>, requests: seq<Request>, schedule: seq<nat>, i: nat)
    requires WellFormed(accounts, txs) && i < |requests|
    requires Prepare(accounts, requests[i]).Success? && requests[i].reverses.Some?
    requires var end := Run(accounts, Start(txs, requests), schedule);
             && end.posters[i].phase.Done?
             && Find(end.txs, requests[i].source).Some?
             && Post(accounts, end.txs, requests[i]).0.Success?
    ensures var end := Run(accounts, Start(txs, requests), schedule);
            var p, target := end.posters[i], requests[i].reverses.value;
            && (p.phase.result == Post(accounts, end.txs, requests[i]).0
                <==> !ReversedInBetween(p, target) && !TargetUnseen(p, target))
            && (ReversedInBetween(p, target) ==> p.phase.result == Failure(AlreadyReversed))
  {
    RunIsConsistent(accounts, Start(txs, requests), schedule);
    var end := Run(accounts, Start(txs, requests), schedule);
    PreparedIsSound(accounts, requests[i]);
    FinishedMatch(accounts, end.txs, end.posters[i], Prepare(accounts, requests[i]).value);
  }

  lemma FinishedMatch(accounts: set<Account>, txs: seq<Transaction>, p: Poster, t: Transaction)
    requires WellFormed(accounts, txs) && PosterOk(accounts, txs, p) && p.phase.Done?
    requires Prepare(accounts, p.request) == Success(t) && t.reverses.Some?
    requires Find(txs, t.source).Some? && Resolve(txs[Find(txs, t.source).value], Find(txs, t.source).value, t).Success?
    ensures var target := t.reverses.value;
            && (p.phase.result == Success(Find(txs, t.source).value)
                <==> !ReversedInBetween(p, target) && !TargetUnseen(p, target))
            && (ReversedInBetween(p, target) ==> p.phase.result == Failure(AlreadyReversed))
  {
    if p.atReference.Some? {
      NotReversedBefore(accounts, txs, p.atLookUp.value, t);
      OnlyReversedBySource(accounts, txs, t);
      TargetIsThere(accounts, txs, p.atReference.value, t);
    }
  }

  /** A store without the source of the stored reversal has no reversal of its target. */
  lemma NotReversedBefore(accounts: set<Account>, txs: seq<Transaction>, before: seq<Transaction>, t: Transaction)
    requires WellFormed(accounts, txs) && before <= txs && t.reverses.Some? && Find(before, t.source).None?
    requires Find(txs, t.source).Some? && txs[Find(txs, t.source).value].reverses == t.reverses
    ensures !IsReversed(before, t.reverses.value)
  {
    forall k | 0 <= k < |before| ensures before[k].reverses != t.reverses {
      assert before[k] == txs[k];
    }
  }

  lemma OnlyReversedBySource(accounts: set<Account>, txs: seq<Transaction>, t: Transaction)
    requires WellFormed(accounts, txs) && t.reverses.Some?
    requires Find(txs, t.source).Some? && txs[Find(txs, t.source).value].reverses == t.reverses
    ensures !ReversedElsewhere(txs, t)
  {
  }

  /** The only fault that a stored target's reversal can have met is a reversal that was there already. */
  lemma TargetIsThere(accounts: set<Account>, txs: seq<Transaction>, before: seq<Transaction>, t: Transaction)
    requires WellFormed(accounts, txs) && before <= txs && t.reverses.Some? && Find(txs, t.source).Some?
    requires var s := txs[Find(txs, t.source).value]; s.reverses == t.reverses && s.chama == t.chama
    ensures t.reverses.value < |before| ==>
              ReferenceFault(before, t) == if IsReversed(before, t.reverses.value) then Some(AlreadyReversed) else None
    ensures t.reverses.value >= |before| ==> ReferenceFault(before, t) == Some(TargetMissing) && !IsReversed(before, t.reverses.value)
  {
    assert SoundTransaction(accounts, txs, Find(txs, t.source).value);
    if t.reverses.value < |before| {
      assert before[t.reverses.value] == txs[t.reverses.value];
    } else {
      forall k | 0 <= k < |before| ensures before[k].reverses != t.reverses {
        assert before[k] == txs[k] && SoundTransaction(accounts, txs, k);
      }
    }
  }
}
