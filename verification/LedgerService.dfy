/** The posting service: the loops and look-ups of the trusted posting path, proved against Ledger. */
module LedgerPosting {
  import opened Wrappers
  import opened Money
  import opened Ledger

  // ----- comparing lines as sorted lists --------------------------------------------------------

  /** Lexicographic order of (account, debit, credit). */
  predicate LineLeq(a: Line, b: Line) {
    if a.account.chama != b.account.chama then a.account.chama < b.account.chama
    else if a.account.code != b.account.code then a.account.code < b.account.code
    else if a.debit != b.debit then a.debit < b.debit
    else a.credit <= b.credit
  }

  ghost predicate Sorted(s: seq<Line>) {
    |s| < 2 || (LineLeq(s[0], s[1]) && Sorted(s[1..]))
  }

  function Insert(x: Line, s: seq<Line>): (r: seq<Line>)
    requires Sorted(s)
    ensures Sorted(r) && multiset(r) == multiset(s) + multiset{x}
    ensures r != [] && (r[0] == x || (s != [] && r[0] == s[0]))
  {
    if s == [] then [x]
    else
      assert s == [s[0]] + s[1..];
      if LineLeq(x, s[0]) then
        assert ([x] + s)[1..] == s;
        [x] + s
      else
        var tail := Insert(x, s[1..]);
        assert ([s[0]] + tail)[1..] == tail;
        [s[0]] + tail
  }

  function Sort(s: seq<Line>): (r: seq<Line>)
    ensures Sorted(r) && multiset(r) == multiset(s)
  {
    if s == [] then []
    else
      assert s == [s[0]] + s[1..];
      Insert(s[0], Sort(s[1..]))
  }

  lemma {:induction false} HeadIsLeast(s: seq<Line>, y: Line)
    requires Sorted(s) && y in s
    ensures LineLeq(s[0], y)
  {
    if y != s[0] {
      assert s == [s[0]] + s[1..];
      HeadIsLeast(s[1..], y);
    }
  }

  lemma SameMultisetSameHead(a: seq<Line>, b: seq<Line>)
    requires Sorted(a) && Sorted(b) && multiset(a) == multiset(b) && a != [] && b != []
    ensures a[0] == b[0]
  {
    assert a[0] in multiset(b) && b[0] in multiset(a);
    HeadIsLeast(a, b[0]);
    HeadIsLeast(b, a[0]);
  }

  lemma TailMultiset(a: seq<Line>)
    requires a != []
    ensures multiset(a[1..]) == multiset(a) - multiset{a[0]}
  {
    assert a == [a[0]] + a[1..];
  }

  lemma {:induction false} SortedListsAreDetermined(a: seq<Line>, b: seq<Line>)
    requires Sorted(a) && Sorted(b) && multiset(a) == multiset(b)
    ensures a == b
  {
    assert |a| == |multiset(a)| == |multiset(b)| == |b|;
    if a != [] {
      SameMultisetSameHead(a, b);
      TailMultiset(a);
      TailMultiset(b);
      SortedListsAreDetermined(a[1..], b[1..]);
      assert a == [a[0]] + a[1..] && b == [b[0]] + b[1..];
    }
  }

  /** Comparing sorted lists compares multisets of lines. */
  lemma SortedEqualIffSameMultiset(a: seq<Line>, b: seq<Line>)
    ensures Sort(a) == Sort(b) <==> multiset(a) == multiset(b)
  {
    if multiset(a) == multiset(b) {
      SortedListsAreDetermined(Sort(a), Sort(b));
    }
  }

  // ----- the service ----------------------------------------------------------------------------

  class LedgerService {
    const accounts: set<Account>
    var txs: seq<Transaction>

    constructor (accounts: set<Account>)
      ensures this.accounts == accounts && txs == []
    {
      this.accounts := accounts;
      txs := [];
    }

    method NormalizeLines(raw: seq<RawLine>) returns (r: Result<seq<Line>, LedgerError>)
      ensures r == Normalized(raw)
    {
      var normalized: seq<Line> := [];
      for i := 0 to |raw|
        invariant Normalized(raw[..i]) == Success(normalized)
      {
        assert raw[..i + 1][..i] == raw[..i];
        var line := NormalizedLine(raw[i]);
        if line.Failure? {
          FirstErrorStands(raw, i + 1);
          return Failure(line.error);
        }
        normalized := normalized + [line.value];
      }
      assert raw[..|raw|] == raw;
      return Success(normalized);
    }

    method ValidateLines(chama: nat, lines: seq<Line>) returns (fault: Option<LedgerError>)
      ensures fault == LinesFault(accounts, chama, lines)
    {
      if lines == [] {
        return Some(NoEntries);
      }
      var hasDebit, hasCredit, total := false, false, 0;
      for i := 0 to |lines|
        invariant FirstFault(accounts, chama, lines[..i]).None?
        invariant hasDebit <==> exists j :: 0 <= j < i && lines[j].debit > 0
        invariant hasCredit <==> exists j :: 0 <= j < i && lines[j].credit > 0
        invariant total == TotalNet(lines[..i])
      {
        assert lines[..i + 1][..i] == lines[..i];
        var lineFault := LineFault(accounts, chama, lines[i]);
        if lineFault.Some? {
          FirstFaultStands(accounts, chama, lines, i + 1);
          return lineFault;
        }
        if lines[i].debit > 0 {
          hasDebit := true;
        } else {
          hasCredit := true;
        }
        total := total + lines[i].debit - lines[i].credit;
      }
      assert lines[..|lines|] == lines;
      if !hasDebit || !hasCredit {
        return Some(MissingSide);
      }
      if total != 0 {
        return Some(Unbalanced);
      }
      return None;
    }

    method ResolveIdempotentRetry(id: nat, t: Transaction) returns (r: Posted)
      requires id < |txs|
      ensures r == Resolve(txs[id], id, t)
    {
      var existing := txs[id];
      if existing.chama != t.chama {
        return Failure(OtherChama);
      }
      if existing.memo != t.memo {
        return Failure(OtherDescription);
      }
      if existing.reverses != t.reverses {
        return Failure(OtherReversal);
      }
      SortedEqualIffSameMultiset(existing.lines, t.lines);
      if Sort(existing.lines) != Sort(t.lines) {
        return Failure(OtherLines);
      }
      return Success(id);
    }

    method PostTransaction(q: Request) returns (r: Posted)
      modifies this`txs
      ensures r == Post(accounts, old(txs), q).0
      ensures txs == Post(accounts, old(txs), q).1
    {
      var normalized := NormalizeLines(q.raw);
      if normalized.Failure? {
        return Failure(normalized.error);
      }
      var fault := ValidateLines(q.chama, normalized.value);
      if fault.Some? {
        return Failure(fault.value);
      }
      if q.source.kind == LedgerReversal && q.reverses.None? {
        return Failure(ReversalWithoutReference);
      }
      if q.reverses.Some? && q.source.kind != LedgerReversal {
        return Failure(ReferenceWithoutReversal);
      }
      var t := Transaction(q.chama, q.source, q.memo, q.reverses, normalized.value);
      var existing := Find(txs, q.source);
      if existing.Some? {
        r := ResolveIdempotentRetry(existing.value, t);
        return;
      }
      var reference := ReferenceFault(txs, t);
      if reference.Some? {
        return Failure(reference.value);
      }
      txs := txs + [t];
      return Success(|txs| - 1);
    }

    method ReverseTransaction(chama: nat, id: nat, memo: Option<Memo>) returns (r: Posted)
      modifies this`txs
      ensures r == Reverse(accounts, old(txs), chama, id, memo).0
      ensures txs == Reverse(accounts, old(txs), chama, id, memo).1
    {
      if id >= |txs| || txs[id].chama != chama {
        return Failure(TargetMissing);
      }
      var target := txs[id];
      if target.reverses.Some? {
        return Failure(TargetIsReversal);
      }
      var raw: seq<RawLine> := [];
      for i := 0 to |target.lines|
        invariant raw == RawOf(Mirrored(target.lines))[..i]
      {
        var entry := target.lines[i];
        raw := raw + [RawLine(entry.account, Exact(entry.credit as real), Exact(entry.debit as real))];
      }
      assert raw == RawOf(Mirrored(target.lines));
      r := PostTransaction(Request(chama, Source(LedgerReversal, id), memo, raw, Some(id)));
    }
  }

  lemma {:induction false} FirstErrorStands(raw: seq<RawLine>, n: nat)
    requires n <= |raw| && Normalized(raw[..n]).Failure?
    ensures Normalized(raw) == Normalized(raw[..n])
    decreases |raw|
  {
    if n == |raw| {
      assert raw[..n] == raw;
    } else {
      var front := raw[..|raw| - 1];
      assert front[..n] == raw[..n];
      FirstErrorStands(front, n);
    }
  }

  lemma {:induction false} FirstFaultStands(accounts: set<Account>, chama: nat, lines: seq<Line>, n: nat)
    requires n <= |lines| && FirstFault(accounts, chama, lines[..n]).Some?
    ensures FirstFault(accounts, chama, lines) == FirstFault(accounts, chama, lines[..n])
    decreases |lines|
  {
    if n == |lines| {
      assert lines[..n] == lines;
    } else {
      var front := lines[..|lines| - 1];
      assert front[..n] == lines[..n];
      FirstFaultStands(accounts, chama, front, n);
    }
  }
}
