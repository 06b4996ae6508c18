/**
 A run in which one member is paid out twice what the member saved: two members save 600.00 each, one of them asks
 for 600.00 twice, and both requests, each within the limits when made, are completed.
 */
module Overdrawn {
  import opened Wrappers
  import opened Money
  import opened Ledger
  import opened Tally
  import opened Subledger
  import opened Books
  import opened Reconciliation
  import opened Runs
  import opened Solvency
  import opened Admission
  import V = StaleView

  const SECOND := Contribution(1, 60000, 1, Pending)

  function Joined(status: ContributionStatus): Books {
    var c := SECOND.(status := status);
    if status == Pending then V.Saved().(contributions := V.Saved().contributions + [c])
    else V.Saved().(
        contributions := V.Saved().contributions + [c], shares := V.Saved().shares + [Share(1, 1, 60000, true)],
        txs := V.Saved().txs + [PostingOf(0, ContributionEntry(0, 1, c))])
  }

  function Asked(first: PayoutStatus, second: PayoutStatus): Books {
    Joined(Confirmed).(payouts := [Payout(0, 60000, first), Payout(0, 60000, second)])
  }

  function Payment(p: nat): Transaction {
    PostingOf(0, PayoutEntry(0, p, Payout(0, 60000, Completed)))
  }

  function PaidOnce(): Books {
    Asked(Completed, Processing).(txs := Joined(Confirmed).txs + [Payment(0)])
  }

  function PaidTwice(): Books {
    Asked(Completed, Completed).(txs := Joined(Confirmed).txs + [Payment(0)] + [Payment(1)])
  }

  // ----- the steps ------------------------------------------------------------------------------

  lemma TheOtherSaves()
    ensures RecordContribution(V.Saved(), 1, 60000, 1) == (Joined(Pending), Done)
    ensures Settle(Joined(Pending), 1, false) == (Joined(Confirmed), Done)
  {
    UnitsExactAtDefaultPrice(60000);
    assert Joined(Pending).contributions[1 := SECOND.(status := Confirmed)] == Joined(Confirmed).contributions;
  }

  lemma TheFunds(payouts: seq<Payout>)
    requires payouts == [] || payouts == [Payout(0, 60000, Requested)]
    ensures var b := Joined(Confirmed).(payouts := payouts);
            Cash(b) == 120000 && MemberShareValue(b, 0) == 60000 && PaidOut(b, 0) == 0
  {
    var b := Joined(Confirmed).(payouts := payouts);
    V.SavedFunds();
    PostingMovesCash(V.Saved(), Joined(Confirmed), ContributionEntry(0, 1, SECOND.(status := Confirmed)));
    NetOfTwo(0, CASH, SHARE_CAPITAL, 60000);
    assert UnitItems(b.shares) == UnitItems(V.Saved().shares) + [Item(1, 60000)];
    AfterPush(UnitItems(V.Saved().shares), Item(1, 60000), 0);
    InAbsentGroup(CompletedItems(payouts), 0);
  }

  lemma BothAreRequested()
    ensures RequestPayout(Joined(Confirmed), 0, 60000) == (Joined(Confirmed).(payouts := [Payout(0, 60000, Requested)]), Done)
    ensures RequestPayout(Joined(Confirmed).(payouts := [Payout(0, 60000, Requested)]), 0, 60000)
            == (Asked(Requested, Requested), Done)
  {
    TheFunds([]);
    TheFunds([Payout(0, 60000, Requested)]);
    var none := Joined(Confirmed);
    var one := none.(payouts := [Payout(0, 60000, Requested)]);
    assert none.(payouts := []) == none;
    PayoutAcceptedIff(none, 0, 60000);
    PayoutAcceptedIff(one, 0, 60000);
    assert [] + [Payout(0, 60000, Requested)] == one.payouts;
    assert one.payouts + [Payout(0, 60000, Requested)] == Asked(Requested, Requested).payouts;
  }

  lemma BothAreProcessed()
    ensures MovePayout(Asked(Requested, Requested), 0, Granted).0 == Asked(Granted, Requested)
    ensures MovePayout(Asked(Granted, Requested), 1, Granted).0 == Asked(Granted, Granted)
    ensures MovePayout(Asked(Granted, Granted), 0, Processing).0 == Asked(Processing, Granted)
    ensures MovePayout(Asked(Processing, Granted), 1, Processing).0 == Asked(Processing, Processing)
  {
  }

  lemma CashAtCompletion()
    ensures Cash(Asked(Processing, Processing)) == 120000 && Cash(PaidOnce()) == 60000
  {
    TheFunds([]);
    PostingMovesCash(Asked(Processing, Processing), PaidOnce(), PayoutEntry(0, 0, Payout(0, 60000, Completed)));
    NetOfTwo(0, SHARE_CAPITAL, CASH, 60000);
    assert Joined(Confirmed).(payouts := []) == Joined(Confirmed);
  }

  lemma BothAreCompleted()
    ensures CompletePayout(Asked(Processing, Processing), 0).0 == PaidOnce()
    ensures CompletePayout(PaidOnce(), 1).0 == PaidTwice()
  {
    CashAtCompletion();
    assert Asked(Processing, Processing).payouts[0 := Payout(0, 60000, Completed)] == PaidOnce().payouts;
    assert PaidOnce().payouts[1 := Payout(0, 60000, Completed)] == PaidTwice().payouts;
  }

  // ----- the run --------------------------------------------------------------------------------

  const SAVE: seq<Op> := V.SAVE + [DoRecord(1, 60000, 1)] + [DoSettle(1, false)]
  const REQUEST: seq<Op> := SAVE + [DoRequestPayout(0, 60000)] + [DoRequestPayout(0, 60000)]
  const GRANT: seq<Op> := REQUEST + [DoMovePayout(0, Granted)] + [DoMovePayout(1, Granted)]
  const PROCESS: seq<Op> := GRANT + [DoMovePayout(0, Processing)] + [DoMovePayout(1, Processing)]
  const COMPLETE: seq<Op> := PROCESS + [DoComplete(0)] + [DoComplete(1)]

  ghost predicate Reaches(ops: seq<Op>, b: Books) {
    Usable(b) && RunFromEmpty(0, DEFAULT_PRICE, ops) == b
  }

  lemma TwoSteps(ops: seq<Op>, b: Books, first: Op, mid: Books, second: Op, end: Books)
    requires Reaches(ops, b) && Perform(b, first).0 == mid && Usable(mid) && Perform(mid, second).0 == end
    ensures Reaches(ops + [first] + [second], end)
  {
    RunOneMore(Opened(0, DEFAULT_PRICE), ops, first);
    RunOneMore(Opened(0, DEFAULT_PRICE), ops + [first], second);
  }

  lemma BothHaveSaved()
    ensures Reaches(SAVE, Joined(Confirmed))
  {
    V.TheSavingsAreReached();
    TheOtherSaves();
    TwoSteps(V.SAVE, V.Saved(), DoRecord(1, 60000, 1), Joined(Pending), DoSettle(1, false), Joined(Confirmed));
  }

  lemma BothRequestsAreReached()
    ensures Reaches(REQUEST, Asked(Requested, Requested))
  {
    BothHaveSaved();
    BothAreRequested();
    TwoSteps(SAVE, Joined(Confirmed), DoRequestPayout(0, 60000), Joined(Confirmed).(payouts := [Payout(0, 60000, Requested)]),
             DoRequestPayout(0, 60000), Asked(Requested, Requested));
  }

  lemma BothGrantsAreReached()
    ensures Reaches(PROCESS, Asked(Processing, Processing))
  {
    BothRequestsAreReached();
    BothAreProcessed();
    TwoSteps(REQUEST, Asked(Requested, Requested), DoMovePayout(0, Granted), Asked(Granted, Requested),
             DoMovePayout(1, Granted), Asked(Granted, Granted));
    TwoSteps(GRANT, Asked(Granted, Granted), DoMovePayout(0, Processing), Asked(Processing, Granted),
             DoMovePayout(1, Processing), Asked(Processing, Processing));
  }

  lemma BothCompletionsAreReached()
    ensures Reaches(COMPLETE, PaidTwice())
  {
    BothGrantsAreReached();
    BothAreCompleted();
    TwoSteps(PROCESS, Asked(Processing, Processing), DoComplete(0), PaidOnce(), DoComplete(1), PaidTwice());
  }

  /** The member saved 600.00, was paid 1200.00 and has -600.00 available. */
  lemma MemberIsPaidTwice()
    ensures var b := RunFromEmpty(0, DEFAULT_PRICE, COMPLETE);
            b.price > 0 && MemberShareValue(b, 0) == 60000 && PaidOut(b, 0) == 120000 && AvailableShareValue(b, 0) == -60000
  {
    BothCompletionsAreReached();
    TheFunds([]);
    var items := CompletedItems(PaidTwice().payouts);
    assert items == [] + [Item(0, 60000)] + [Item(0, 60000)];
    AfterPush([], Item(0, 60000), 0);
    AfterPush([] + [Item(0, 60000)], Item(0, 60000), 0);
  }
}
