/**
 The in-process fixed-window rate limiter. Times are readings of a monotonic clock. Beside the limiter
 that prunes expired windows stands the one that never does; callers cannot tell them apart.
 */
module RateLimiting {
  import opened Wrappers

  type Key = string

  datatype Window = Window(count: nat, start: real)

  datatype Limits = Limits(most: nat, width: real)

  predicate Sound(l: Limits) {
    l.most >= 1 && l.width > 0.0
  }

  type Counts = map<Key, Window>

  predicate Expired(l: Limits, w: Window, now: real) {
    now - w.start >= l.width
  }

  /** The window a call at this time falls into. */
  function Current(l: Limits, counts: Counts, key: Key, now: real): Window {
    if key in counts && !Expired(l, counts[key], now) then counts[key] else Window(0, now)
  }

  predicate Allows(l: Limits, counts: Counts, key: Key, now: real) {
    Current(l, counts, key, now).count < l.most
  }

  function Charged(l: Limits, counts: Counts, key: Key, now: real): Counts {
    var w := Current(l, counts, key, now);
    counts[key := if Allows(l, counts, key, now) then w.(count := w.count + 1) else w]
  }

  function Pruned(l: Limits, counts: Counts, now: real): Counts {
    map k | k in counts && !Expired(l, counts[k], now) :: counts[k]
  }

  function AfterCall(l: Limits, counts: Counts, key: Key, now: real): Counts {
    if Allows(l, counts, key, now) then Pruned(l, Charged(l, counts, key, now), now) else Charged(l, counts, key, now)
  }

  /** Python's int: truncation toward zero. */
  function Trunc(x: real): int {
    if x >= 0.0 then x.Floor else -((-x).Floor)
  }

  function RetryAfterOf(l: Limits, counts: Counts, key: Key, now: real): int {
    var start := if key in counts then counts[key].start else now;
    var wait := Trunc(l.width - (now - start)) + 1;
    if wait > 0 then wait else 0
  }

  class RateLimiter {
    const limits: Limits
    var counts: Counts

    constructor (limits: Limits)
      requires Sound(limits)
      ensures this.limits == limits && counts == map[]
    {
      this.limits := limits;
      counts := map[];
    }

    static method Make(maxRequests: int, windowSeconds: real) returns (r: Option<RateLimiter>)
      ensures r.None? <==> maxRequests < 1 || windowSeconds <= 0.0
      ensures r.Some? ==> fresh(r.value) && r.value.counts == map[] && r.value.limits == Limits(maxRequests, windowSeconds)
    {
      if maxRequests < 1 || windowSeconds <= 0.0 {
        return None;
      }
      var limiter := new RateLimiter(Limits(maxRequests, windowSeconds));
      return Some(limiter);
    }

    method Allow(key: Key, now: real) returns (allowed: bool)
      requires Sound(limits)
      modifies this
      ensures allowed == Allows(limits, old(counts), key, now)
      ensures counts == AfterCall(limits, old(counts), key, now)
    {
      var count, windowStart := 0, now;
      if key in counts {
        count, windowStart := counts[key].count, counts[key].start;
      }
      if now - windowStart >= limits.width {
        count, windowStart := 0, now;
      }
      if count >= limits.most {
        counts := counts[key := Window(count, windowStart)];
        return false;
      }
      counts := counts[key := Window(count + 1, windowStart)];
      Prune(now);
      return true;
    }

    method Prune(now: real)
      modifies this
      ensures counts == Pruned(limits, old(counts), now)
    {
      var expired := set k | k in counts && now - counts[k].start >= limits.width;
      while expired != {}
        invariant forall k :: k in expired <==> k in counts && Expired(limits, counts[k], now)
        invariant forall k :: k in counts ==> k in old(counts) && counts[k] == old(counts)[k]
        invariant forall k :: k in old(counts) && !Expired(limits, old(counts)[k], now) ==> k in counts
        decreases expired
      {
        var key :| key in expired;
        expired := expired - {key};
        counts := counts - {key};
      }
    }

    method RetryAfterSeconds(key: Key, now: real) returns (seconds: int)
      ensures seconds == RetryAfterOf(limits, counts, key, now)
    {
      var windowStart := now;
      if key in counts {
        windowStart := counts[key].start;
      }
      seconds := Trunc(limits.width - (now - windowStart)) + 1;
      if seconds < 0 {
        seconds := 0;
      }
    }

    /** Every key has its whole budget again, whatever was counted before. */
    method Reset()
      modifies this
      ensures counts == map[]
      ensures Sound(limits) ==> forall key: Key, now: real :: Allows(limits, counts, key, now)
    {
      counts := map[];
    }
  }

  // ----- runs -----------------------------------------------------------------------------------

  datatype Call = Call(key: Key, now: real)

  /** The clock never goes back. */
  ghost predicate Monotone(calls: seq<Call>) {
    forall i, j :: 0 <= i < j < |calls| ==> calls[i].now <= calls[j].now
  }

  function After(l: Limits, calls: seq<Call>): Counts {
    if calls == [] then map[]
    else AfterCall(l, After(l, calls[..|calls| - 1]), calls[|calls| - 1].key, calls[|calls| - 1].now)
  }

  /** The same calls on a limiter that never prunes. */
  function AfterUnpruned(l: Limits, calls: seq<Call>): Counts {
    if calls == [] then map[]
    else Charged(l, AfterUnpruned(l, calls[..|calls| - 1]), calls[|calls| - 1].key, calls[|calls| - 1].now)
  }

  predicate Allowed(l: Limits, calls: seq<Call>, i: nat)
    requires i < |calls|
  {
    Allows(l, After(l, calls[..i]), calls[i].key, calls[i].now)
  }

  /** The pruned store holds what the unpruned one holds, except for windows that have expired by now. */
  ghost predicate SameButExpired(l: Limits, pruned: Counts, full: Counts, now: real) {
    && (forall k :: k in pruned ==> k in full && pruned[k] == full[k])
    && (forall k :: k in full && k !in pruned ==> Expired(l, full[k], now))
  }

  lemma {:induction false} PrunedAndFullAgree(l: Limits, calls: seq<Call>)
    requires Sound(l) && Monotone(calls)
    ensures calls == [] ==> After(l, calls) == AfterUnpruned(l, calls)
    ensures calls != [] ==> SameButExpired(l, After(l, calls), AfterUnpruned(l, calls), calls[|calls| - 1].now)
  {
    if calls != [] {
      PrunedAndFullAgree(l, calls[..|calls| - 1]);
    }
  }

  /** Pruning is invisible: every call is answered as by a limiter that never prunes. */
  lemma PruningIsInvisible(l: Limits, calls: seq<Call>, i: nat)
    requires Sound(l) && Monotone(calls) && i < |calls|
    ensures Allowed(l, calls, i) <==> Allows(l, AfterUnpruned(l, calls[..i]), calls[i].key, calls[i].now)
  {
    PrunedAndFullAgree(l, calls[..i]);
  }

  /** After an allowed call no expired window is kept, so the store is bounded by the live keys. */
  lemma OnlyLiveWindowsAreKept(l: Limits, calls: seq<Call>, key: Key)
    requires Sound(l) && calls != [] && Allowed(l, calls, |calls| - 1) && key in After(l, calls)
    ensures !Expired(l, After(l, calls)[key], calls[|calls| - 1].now)
    ensures After(l, calls)[calls[|calls| - 1].key].count >= 1
  {
  }

  /** Allowed calls of one key at or after a time and before one window width has passed. */
  function AllowedWithin(l: Limits, calls: seq<Call>, key: Key, t: real): nat {
    if calls == [] then 0
    else
      var last := calls[|calls| - 1];
      AllowedWithin(l, calls[..|calls| - 1], key, t)
      + if last.key == key && t <= last.now < t + l.width && Allowed(l, calls, |calls| - 1) then 1 else 0
  }

  /** What the current window of a key says about any half-open interval of one window width. */
  function Ceiling(l: Limits, w: Window, t: real): nat {
    if w.start + l.width <= t then 0
    else if w.start <= t then w.count
    else if w.start < t + l.width then l.most + w.count
    else 2 * l.most
  }

  lemma {:induction false} CeilingHolds(l: Limits, calls: seq<Call>, key: Key, t: real)
    requires Sound(l) && Monotone(calls)
    ensures var full := AfterUnpruned(l, calls);
            if key !in full then AllowedWithin(l, calls, key, t) == 0
            else full[key].count <= l.most && full[key].start <= calls[|calls| - 1].now
                 && AllowedWithin(l, calls, key, t) <= Ceiling(l, full[key], t)
  {
    if calls != [] {
      CeilingHolds(l, calls[..|calls| - 1], key, t);
      PruningIsInvisible(l, calls, |calls| - 1);
    }
  }

  /** In any half-open interval of one window width a key is allowed at most twice its budget. */
  lemma AtMostTwiceTheBudget(l: Limits, calls: seq<Call>, key: Key, t: real)
    requires Sound(l) && Monotone(calls)
    ensures AllowedWithin(l, calls, key, t) <= 2 * l.most
  {
    CeilingHolds(l, calls, key, t);
  }

  /** A window admits at most the budget, and the next window of the same key starts at least one width later. */
  lemma WindowsAreBoundedAndApart(l: Limits, calls: seq<Call>, key: Key, now: real)
    requires Sound(l) && Monotone(calls + [Call(key, now)]) && key in AfterUnpruned(l, calls)
    ensures var before, after := AfterUnpruned(l, calls)[key], AfterUnpruned(l, calls + [Call(key, now)])[key];
            && AllowedWithin(l, calls, key, before.start) <= l.most
            && (after.start == before.start || after.start >= before.start + l.width)
  {
    assert (calls + [Call(key, now)])[..|calls|] == calls;
    assert Monotone(calls) by {
      assert forall i :: 0 <= i < |calls| ==> (calls + [Call(key, now)])[i] == calls[i];
    }
    CeilingHolds(l, calls, key, AfterUnpruned(l, calls)[key].start);
  }

  /** The current window of a key counts exactly the calls it allowed, and no call of the key falls after it. */
  lemma {:induction false} WindowCountsItsCalls(l: Limits, calls: seq<Call>, key: Key)
    requires Sound(l) && Monotone(calls)
    ensures var full := AfterUnpruned(l, calls);
            if key !in full then forall i :: 0 <= i < |calls| ==> calls[i].key != key
            else
              && full[key].count == AllowedWithin(l, calls, key, full[key].start)
              && full[key].start <= calls[|calls| - 1].now
              && forall i :: 0 <= i < |calls| && calls[i].key == key ==> calls[i].now < full[key].start + l.width
  {
    if calls != [] {
      var n := |calls| - 1;
      WindowCountsItsCalls(l, calls[..n], key);
      PruningIsInvisible(l, calls, n);
      if calls[n].key == key && key in AfterUnpruned(l, calls[..n]) && Expired(l, AfterUnpruned(l, calls[..n])[key], calls[n].now) {
        NoneSince(l, calls[..n], key, calls[n].now);
      } else if calls[n].key == key && key !in AfterUnpruned(l, calls[..n]) {
        NoneSince(l, calls[..n], key, calls[n].now);
      }
    }
  }

  lemma {:induction false} NoneSince(l: Limits, calls: seq<Call>, key: Key, t: real)
    requires forall i :: 0 <= i < |calls| && calls[i].key == key ==> calls[i].now < t
    ensures AllowedWithin(l, calls, key, t) == 0
  {
    if calls != [] {
      NoneSince(l, calls[..|calls| - 1], key, t);
    }
  }

  /** A call is refused if and only if its key's window is still running and has allowed its whole budget. */
  lemma RefusedIff(l: Limits, calls: seq<Call>, i: nat)
    requires Sound(l) && Monotone(calls) && i < |calls|
    ensures var (key, now) := (calls[i].key, calls[i].now);
            var full := AfterUnpruned(l, calls[..i]);
            !Allowed(l, calls, i) <==>
              && key in full && now < full[key].start + l.width
              && AllowedWithin(l, calls[..i], key, full[key].start) == l.most
  {
    PruningIsInvisible(l, calls, i);
    WindowCountsItsCalls(l, calls[..i], calls[i].key);
    CeilingHolds(l, calls[..i], calls[i].key, calls[i].now);
  }

  /** Allowed calls of one key after a time. */
  function AllowedAfter(l: Limits, calls: seq<Call>, key: Key, t: real): nat {
    if calls == [] then 0
    else
      var last := calls[|calls| - 1];
      AllowedAfter(l, calls[..|calls| - 1], key, t) + if last.key == key && last.now > t && Allowed(l, calls, |calls| - 1) then 1 else 0
  }

  lemma {:induction false} LaterStartCountsLess(l: Limits, calls: seq<Call>, key: Key, t: real, start: real)
    requires t < start
    ensures AllowedWithin(l, calls, key, start) <= AllowedAfter(l, calls, key, t)
  {
    if calls != [] {
      LaterStartCountsLess(l, calls[..|calls| - 1], key, t, start);
    }
  }

  /** Nobody is refused early: a key that was allowed fewer calls than its budget during the last width is allowed. */
  lemma UnderBudgetIsAllowed(l: Limits, calls: seq<Call>, i: nat)
    requires Sound(l) && Monotone(calls) && i < |calls|
    requires AllowedAfter(l, calls[..i], calls[i].key, calls[i].now - l.width) < l.most
    ensures Allowed(l, calls, i)
  {
    RefusedIff(l, calls, i);
    if !Allowed(l, calls, i) {
      LaterStartCountsLess(l, calls[..i], calls[i].key, calls[i].now - l.width, AfterUnpruned(l, calls[..i])[calls[i].key].start);
    }
  }

  // ----- retry-after ----------------------------------------------------------------------------

  function Continue(l: Limits, counts: Counts, calls: seq<Call>): Counts {
    if calls == [] then counts
    else AfterCall(l, Continue(l, counts, calls[..|calls| - 1]), calls[|calls| - 1].key, calls[|calls| - 1].now)
  }

  /** Calls of other keys leave a key's window alone, or prune it once it has expired. */
  lemma {:induction false} OthersLeaveTheWindow(l: Limits, counts: Counts, calls: seq<Call>, key: Key, until: real)
    requires Sound(l) && key in counts
    requires forall i :: 0 <= i < |calls| ==> calls[i].key != key && calls[i].now <= until
    ensures var later := Continue(l, counts, calls);
            (key in later && later[key] == counts[key]) || (key !in later && Expired(l, counts[key], until))
  {
    if calls != [] {
      OthersLeaveTheWindow(l, counts, calls[..|calls| - 1], key, until);
    }
  }

  /**
   A blocked key that is not called again, whatever other keys do meanwhile, is allowed exactly from the end
   of its window on; the seconds it was told to wait reach past that end, by at most one second.
   */
  lemma BlockedKeyIsAllowedAfterRetry(l: Limits, counts: Counts, key: Key, now: real, others: seq<Call>, later: real)
    requires Sound(l) && !Allows(l, counts, key, now) && now <= later
    requires forall i :: 0 <= i < |others| ==> others[i].key != key && others[i].now <= later
    ensures var blocked := AfterCall(l, counts, key, now);
            && key in blocked
            && var end := blocked[key].start + l.width;
               var wait := RetryAfterOf(l, blocked, key, now);
               && (Allows(l, Continue(l, blocked, others), key, later) <==> later >= end)
               && end < now + wait as real <= end + 1.0
               && (later >= now + wait as real ==> Allows(l, Continue(l, blocked, others), key, later))
  {
    OthersLeaveTheWindow(l, AfterCall(l, counts, key, now), others, key, later);
  }
}
