/** The client reference of a payment attempt: the first free candidate on the connection. */
module ClientReference {

  function Digit(d: nat): char
    requires d < 10
  {
    ['0', '1', '2', '3', '4', '5', '6', '7', '8', '9'][d]
  }

  function Decimal(n: nat): string {
    if n < 10 then [Digit(n)] else Decimal(n / 10) + [Digit(n % 10)]
  }

  function DigitValue(c: char): nat {
    if '0' <= c <= '9' then (c as int) - ('0' as int) else 0
  }

  function Value(s: string): nat {
    if s == "" then 0 else 10 * Value(s[..|s| - 1]) + DigitValue(s[|s| - 1])
  }

  lemma {:induction false} DecimalRoundTrips(n: nat)
    ensures Value(Decimal(n)) == n
  {
    if n < 10 {
      assert Decimal(n)[..0] == "";
    } else {
      DecimalRoundTrips(n / 10);
      assert Decimal(n)[..|Decimal(n)| - 1] == Decimal(n / 10);
    }
  }

  function Candidate(base: string, counter: nat): string {
    if counter == 0 then base else base + "-" + Decimal(counter)
  }

  lemma CandidatesDiffer(base: string, c: nat, d: nat)
    requires Candidate(base, c) == Candidate(base, d)
    ensures c == d
  {
    if c > 0 && d > 0 {
      assert (base + "-" + Decimal(c))[|base| + 1..] == Decimal(c);
      assert (base + "-" + Decimal(d))[|base| + 1..] == Decimal(d);
      DecimalRoundTrips(c);
      DecimalRoundTrips(d);
    }
  }

  /** Pigeonhole: n different candidates that are all taken need n references. */
  lemma {:induction false} TakenCandidatesFit(existing: set<string>, base: string, n: nat)
    requires forall c :: 0 <= c < n ==> Candidate(base, c) in existing
    ensures n <= |existing|
  {
    if n > 0 {
      var last := Candidate(base, n - 1);
      forall c | 0 <= c < n - 1 ensures Candidate(base, c) in existing - {last} {
        if Candidate(base, c) == last {
          CandidatesDiffer(base, c, n - 1);
        }
      }
      TakenCandidatesFit(existing - {last}, base, n - 1);
    }
  }

  /** The search ends on an unused reference after at most as many steps as there are references. */
  method UniqueClientReference(existing: set<string>, base: string) returns (candidate: string, counter: nat)
    ensures candidate !in existing
    ensures candidate == Candidate(base, counter) && counter <= |existing|
    ensures forall c :: 0 <= c < counter ==> Candidate(base, c) in existing
  {
    candidate, counter := base, 0;
    while candidate in existing
      invariant candidate == Candidate(base, counter)
      invariant forall c :: 0 <= c < counter ==> Candidate(base, c) in existing
      invariant counter <= |existing|
      decreases |existing| - counter
    {
      TakenCandidatesFit(existing, base, counter + 1);
      counter := counter + 1;
      candidate := base + "-" + Decimal(counter);
    }
  }
}
