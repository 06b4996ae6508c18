/**
 Money is an integer number of cents, a unit price is a positive number of cents and an interest
 rate is a real number. Every rounding in the services is Decimal.quantize with ROUND_HALF_UP.
 */
module Money {

  /** ROUND_HALF_UP to a whole number: nearest, ties away from zero. */
  function HalfUp(x: real): (r: int)
    ensures x >= 0.0 ==> r as real - 0.5 <= x < r as real + 0.5
    ensures x < 0.0 ==> r as real - 0.5 < x <= r as real + 0.5
  {
    if x >= 0.0 then (x + 0.5).Floor else -((0.5 - x).Floor)
  }

  /** The rounding rule has no freedom left: only one whole number obeys it. */
  lemma HalfUpIsUnique(x: real, r: int)
    requires if x >= 0.0 then r as real - 0.5 <= x < r as real + 0.5 else r as real - 0.5 < x <= r as real + 0.5
    ensures r == HalfUp(x)
  {
  }

  lemma WholeCentsAreKept(c: int)
    ensures HalfUp(c as real) == c
  {
  }

  /** Flat interest for the whole term, in cents. */
  function InterestFor(principal: int, rate: real): (interest: int)
    requires principal >= 0 && rate >= 0.0
    ensures interest >= 0
  {
    HalfUp(principal as real * rate)
  }

  /** Share units are stored with four decimals; one step is a ten-thousandth of a share, worth this many cents. */
  function StepPrice(price: int): (step: real)
    requires price > 0
    ensures step > 0.0
  {
    price as real / 10000.0
  }

  /** Ten-thousandths of a share bought by an amount. */
  function UnitsFor(amount: int, price: int): int
    requires price > 0
  {
    HalfUp(amount as real / StepPrice(price))
  }

  /** Value in cents of a number of ten-thousandths of a share. */
  function ShareValue(units: int, price: int): int
    requires price > 0
  {
    HalfUp(units as real * StepPrice(price))
  }

  function Total(xs: seq<int>): int {
    if xs == [] then 0 else Total(xs[..|xs| - 1]) + xs[|xs| - 1]
  }

  function UnitsBought(amounts: seq<int>, price: int): int
    requires price > 0
  {
    if amounts == [] then 0
    else UnitsBought(amounts[..|amounts| - 1], price) + UnitsFor(amounts[|amounts| - 1], price)
  }

  /** At the default price of 100.00 a share, one cent buys exactly one ten-thousandth of a share. */
  const DEFAULT_PRICE := 10000

  lemma UnitsExactAtDefaultPrice(x: int)
    ensures UnitsFor(x, DEFAULT_PRICE) == x && ShareValue(x, DEFAULT_PRICE) == x
  {
  }

  lemma {:induction false} ShareValueExactAtDefaultPrice(amounts: seq<int>)
    ensures ShareValue(UnitsBought(amounts, DEFAULT_PRICE), DEFAULT_PRICE) == Total(amounts)
    ensures UnitsBought(amounts, DEFAULT_PRICE) == Total(amounts)
  {
    if amounts != [] {
      ShareValueExactAtDefaultPrice(amounts[..|amounts| - 1]);
      UnitsExactAtDefaultPrice(amounts[|amounts| - 1]);
    }
    UnitsExactAtDefaultPrice(UnitsBought(amounts, DEFAULT_PRICE));
  }

  lemma OneShareError(amount: int, step: real, units: int)
    requires step > 0.0 && units == HalfUp(amount as real / step)
    ensures -0.5 * step <= units as real * step - amount as real <= 0.5 * step
  {
    var exact := amount as real / step;
    assert exact * step == amount as real;
    var diff := units as real - exact;
    assert units as real * step - amount as real == diff * step;
    assert -0.5 <= diff <= 0.5;
  }

  /** Half a step for every share. */
  function Slack(shares: nat, step: real): real {
    if shares == 0 then 0.0 else Slack(shares - 1, step) + 0.5 * step
  }

  lemma {:induction false} SlackIsLinear(shares: nat, price: int)
    requires price > 0
    ensures Slack(shares, StepPrice(price)) == shares as real * (price as real * 0.00005)
  {
    if shares > 0 {
      SlackIsLinear(shares - 1, price);
      assert shares as real == (shares - 1) as real + 1.0;
      assert 0.5 * StepPrice(price) == price as real * 0.00005;
    }
  }

  lemma AddStep(n: int, m: int, step: real)
    ensures (n + m) as real * step == n as real * step + m as real * step
  {
  }

  function SumOf(xs: seq<real>): real {
    if xs == [] then 0.0 else SumOf(xs[..|xs| - 1]) + xs[|xs| - 1]
  }

  /** The units bought by each amount. */
  function Units(amounts: seq<int>, price: int): (units: seq<int>)
    requires price > 0
    ensures |units| == |amounts|
  {
    seq(|amounts|, i requires 0 <= i < |amounts| => UnitsFor(amounts[i], price))
  }

  lemma {:induction false} TotalUnits(amounts: seq<int>, price: int)
    requires price > 0
    ensures Total(Units(amounts, price)) == UnitsBought(amounts, price)
  {
    if amounts != [] {
      TotalUnits(amounts[..|amounts| - 1], price);
      assert Units(amounts, price)[..|amounts| - 1] == Units(amounts[..|amounts| - 1], price);
    }
  }

  /** What units are worth, before rounding. */
  function Worth(units: int, step: real): real {
    units as real * step
  }

  function Worths(units: seq<int>, step: real): (worths: seq<real>)
    ensures |worths| == |units|
  {
    seq(|units|, i requires 0 <= i < |units| => Worth(units[i], step))
  }

  lemma {:induction false} TotalWorth(units: seq<int>, worths: seq<real>, step: real)
    requires |worths| == |units| && forall i :: 0 <= i < |units| ==> worths[i] == Worth(units[i], step)
    ensures SumOf(worths) == Worth(Total(units), step)
  {
    if units != [] {
      var front, last := units[..|units| - 1], units[|units| - 1];
      TotalWorth(front, worths[..|units| - 1], step);
      AddStep(Total(front), last, step);
    }
  }

  lemma {:induction false} ErrorsAddUp(worths: seq<real>, amounts: seq<int>, step: real)
    requires |worths| == |amounts|
    requires forall i :: 0 <= i < |amounts| ==> -0.5 * step <= worths[i] - amounts[i] as real <= 0.5 * step
    ensures -Slack(|amounts|, step) <= SumOf(worths) - Total(amounts) as real <= Slack(|amounts|, step)
  {
    if amounts != [] {
      ErrorsAddUp(worths[..|amounts| - 1], amounts[..|amounts| - 1], step);
    }
  }

  lemma WorthsError(amounts: seq<int>, price: int)
    requires price > 0
    ensures var slack := Slack(|amounts|, StepPrice(price));
            -slack <= SumOf(Worths(Units(amounts, price), StepPrice(price))) - Total(amounts) as real <= slack
  {
    var step := StepPrice(price);
    var worths := Worths(Units(amounts, price), step);
    forall i | 0 <= i < |amounts| ensures -0.5 * step <= worths[i] - amounts[i] as real <= 0.5 * step {
      OneShareError(amounts[i], step, UnitsFor(amounts[i], price));
    }
    ErrorsAddUp(worths, amounts, step);
  }

  lemma RoundingMoves(x: real, y: real, slack: real)
    requires -slack <= x - y <= slack
    ensures -(slack + 0.5) <= HalfUp(x) as real - y <= slack + 0.5
  {
  }

  lemma ValueIsRoundedSum(amounts: seq<int>, price: int)
    requires price > 0
    ensures ShareValue(UnitsBought(amounts, price), price) == HalfUp(SumOf(Worths(Units(amounts, price), StepPrice(price))))
  {
    var units, step := Units(amounts, price), StepPrice(price);
    TotalUnits(amounts, price);
    TotalWorth(units, Worths(units, step), step);
    assert ShareValue(UnitsBought(amounts, price), price) == HalfUp(Worth(UnitsBought(amounts, price), step));
  }

  /** At any price, n shares misstate their contributions by at most n * price * 0.00005 plus half a cent. */
  lemma ShareValueError(amounts: seq<int>, price: int)
    requires price > 0
    ensures var slack := Slack(|amounts|, StepPrice(price)) + 0.5;
            -slack <= ShareValue(UnitsBought(amounts, price), price) as real - Total(amounts) as real <= slack
  {
    WorthsError(amounts, price);
    RoundingMoves(SumOf(Worths(Units(amounts, price), StepPrice(price))), Total(amounts) as real, Slack(|amounts|, StepPrice(price)));
    ValueIsRoundedSum(amounts, price);
  }
}
