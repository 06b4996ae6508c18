/**
 A schedule of two sessions that post the same reversal: one stores it, the other is told that the transaction is
 already reversed, where a retry would get its id.
 */
module RacingReversals {
  import opened Wrappers
  import opened Ledger
  import opened ConcurrentPosting

  function Pair(chama: nat, amount: int): seq<Line> {
    [Line(Account(chama, CASH), amount, 0), Line(Account(chama, SHARE_CAPITAL), 0, amount)]
  }

  function Saved(): Transaction {
    Transaction(0, Source(ContributionConfirmation, 0), None, None, Pair(0, 100))
  }

  function Undone(): Transaction {
    Transaction(0, Source(LedgerReversal, 0), None, Some(0), Mirrored(Saved().lines))
  }

  function UndoRequest(): Request {
    Request(0, Source(LedgerReversal, 0), None, RawOf(Undone().lines), Some(0))
  }

  function BothAccounts(): set<Account> {
    {Account(0, CASH), Account(0, SHARE_CAPITAL)}
  }

  lemma UndoIsPrepared()
    ensures Prepare(BothAccounts(), UndoRequest()) == Success(Undone())
  {
    PairIsBalancedHere();
    WholeCentLinesAreKept(Undone().lines);
    MirroredIsBalanced(BothAccounts(), 0, Saved().lines);
    ValidationIsExact(BothAccounts(), 0, Undone().lines);
  }

  lemma SavedIsWellFormed()
    ensures WellFormed(BothAccounts(), [Saved()])
  {
    PairIsBalancedHere();
    assert SoundTransaction(BothAccounts(), [Saved()], 0);
  }

  lemma PairIsBalancedHere()
    ensures Balanced(BothAccounts(), 0, Pair(0, 100))
  {
    var lines := Pair(0, 100);
    assert lines[..1][..0] == [] && lines[..1] == [lines[0]];
    assert TotalNet(lines[..1]) == 100;
    assert lines[0].debit > 0 && lines[1].credit > 0;
  }

  /** The two sessions after the first has looked up, and as the other one goes on. */
  function Racing(txs: seq<Transaction>, first: Phase, firstRead: Option<seq<Transaction>>, checked: Option<seq<Transaction>>): World {
    World(txs, [Poster(UndoRequest(), first, firstRead, checked),
                Poster(UndoRequest(), SourceUnseen(Undone()), Some([Saved()]), None)])
  }

  lemma BothLookUp()
    ensures var accounts, one := BothAccounts(), Some([Saved()]);
            && Step(accounts, Start([Saved()], [UndoRequest(), UndoRequest()]), 1) == Racing([Saved()], Arrived, None, None)
            && Step(accounts, Racing([Saved()], Arrived, None, None), 0) == Racing([Saved()], SourceUnseen(Undone()), one, None)
  {
    UndoIsPrepared();
    FindInOne(Undone().source);
  }

  lemma TheWinnerChecks()
    ensures var one := Some([Saved()]);
            Step(BothAccounts(), Racing([Saved()], SourceUnseen(Undone()), one, None), 0)
            == Racing([Saved()], Cleared(Undone()), one, one)
  {
  }

  lemma TheWinnerInserts()
    ensures var one := Some([Saved()]);
            Step(BothAccounts(), Racing([Saved()], Cleared(Undone()), one, one), 0)
            == Racing([Saved(), Undone()], Done(Success(1)), one, one)
  {
    FindInOne(Undone().source);
    assert [Saved()] + [Undone()] == [Saved(), Undone()];
  }

  /**
   Two sessions post the same reversal. Both look its source up and find nothing; one stores it; the other then checks
   the reference and is told that the transaction is already reversed, where a retry would get its id.
   */
  lemma IdenticalReversalIsRefused()
    ensures var end := Run(BothAccounts(), Start([Saved()], [UndoRequest(), UndoRequest()]), [1, 0, 0, 0, 1]);
            && WellFormed(BothAccounts(), [Saved()])
            && end.txs == [Saved(), Undone()]
            && end.posters[0].phase == Done(Success(1))
            && end.posters[1].phase == Done(Failure(AlreadyReversed))
            && Post(BothAccounts(), end.txs, UndoRequest()).0 == Success(1)
  {
    FiveSteps(BothAccounts(), Start([Saved()], [UndoRequest(), UndoRequest()]), 1, 0, 0, 0, 1);
    BothLookUp();
    TheWinnerChecks();
    TheWinnerInserts();
    SavedIsWellFormed();
    TheLoser();
  }

  lemma TheLoser()
    ensures var w := Racing([Saved(), Undone()], Done(Success(1)), Some([Saved()]), Some([Saved()]));
            var end := Step(BothAccounts(), w, 1);
            && end.txs == w.txs && end.posters[0] == w.posters[0] && end.posters[1].phase == Done(Failure(AlreadyReversed))
            && Post(BothAccounts(), end.txs, UndoRequest()).0 == Success(1)
  {
    UndoIsPrepared();
    FindInOne(Undone().source);
    assert [Saved(), Undone()][1].reverses == Some(0);
  }

  lemma FindInOne(source: Source)
    ensures Find([Saved()], source) == if Saved().source == source then Some(0) else None
    ensures Find([Saved(), Undone()], Undone().source) == Some(1)
  {
    assert [Saved()][..0] == [] && [Saved(), Undone()][..1] == [Saved()];
  }

  lemma FiveSteps(accounts: set<Account>, w: World, a: nat, b: nat, c: nat, d: nat, e: nat)
    ensures Run(accounts, w, [a, b, c, d, e])
            == Step(accounts, Step(accounts, Step(accounts, Step(accounts, Step(accounts, w, a), b), c), d), e)
  {
    assert [a, b, c, d, e][..4] == [a, b, c, d] && [a, b, c, d][..3] == [a, b, c] && [a, b, c][..2] == [a, b];
    assert [a, b][..1] == [a] && [a][..0] == [];
    assert Run(accounts, w, [a]) == Step(accounts, w, a);
    assert Run(accounts, w, [a, b]) == Step(accounts, Run(accounts, w, [a]), b);
    assert Run(accounts, w, [a, b, c]) == Step(accounts, Run(accounts, w, [a, b]), c);
  }
}
