/** Calendar-month arithmetic of loan maturities and of the analytics window. */
module Calendar {
  import opened Wrappers

  datatype Date = Date(year: int, month: int, day: int)

  predicate Leap(year: int) {
    year % 4 == 0 && (year % 100 != 0 || year % 400 == 0)
  }

  function DaysIn(year: int, month: int): (days: int)
    requires 1 <= month <= 12
    ensures 28 <= days <= 31
  {
    if month == 2 then (if Leap(year) then 29 else 28)
    else if month in {4, 6, 9, 11} then 30
    else 31
  }

  predicate Valid(d: Date) {
    1 <= d.month <= 12 && 1 <= d.day <= DaysIn(d.year, d.month)
  }

  predicate Before(a: Date, b: Date) {
    a.year < b.year || (a.year == b.year && (a.month < b.month || (a.month == b.month && a.day < b.day)))
  }

  function MonthIndex(d: Date): int {
    d.year * 12 + d.month
  }

  function Min(a: int, b: int): int {
    if a < b then a else b
  }

  /** Months from a date, the day clamped to the length of the target month. */
  function AddMonths(d: Date, months: int): Date {
    var index := d.month - 1 + months;
    var year := d.year + index / 12;
    var month := index % 12 + 1;
    Date(year, month, Min(d.day, DaysIn(year, month)))
  }

  /** n months later, on the same day unless the target month lacks it, and then on its last day. */
  lemma AddMonthsLands(d: Date, n: int)
    requires Valid(d)
    ensures var later := AddMonths(d, n);
            && Valid(later) && MonthIndex(later) == MonthIndex(d) + n
            && (later.day == d.day || (!Valid(later.(day := d.day)) && !Valid(later.(day := later.day + 1))))
  {
  }

  /** Days from the epoch to the first of January: a leap day every fourth year, not every hundredth, but every 400th. */
  function NewYear(year: int): int {
    365 * year + (year + 3) / 4 - (year + 99) / 100 + (year + 399) / 400
  }

  /** Long and short months alternate, with a new start in August; February makes up the Gregorian year. */
  lemma MonthsMakeTheYear(year: int, month: int)
    requires 1 <= month <= 12
    ensures month != 2 ==> DaysIn(year, month) == 30 + (month + month / 8) % 2
    ensures DaysIn(year, 2) == NewYear(year + 1) - NewYear(year) - 337
  {
    FourthYears(year);
    HundredthYears(year);
    FourHundredthYears(year);
  }

  lemma FourthYears(year: int)
    ensures (year + 4) / 4 - (year + 3) / 4 == if year % 4 == 0 then 1 else 0
  {
  }

  lemma HundredthYears(year: int)
    ensures (year + 100) / 100 - (year + 99) / 100 == if year % 100 == 0 then 1 else 0
  {
  }

  lemma FourHundredthYears(year: int)
    ensures (year + 400) / 400 - (year + 399) / 400 == if year % 400 == 0 then 1 else 0
  {
  }

  lemma OrderOfMonths(a: Date, b: Date)
    requires Valid(a) && Valid(b)
    ensures MonthIndex(a) < MonthIndex(b) ==> Before(a, b)
    ensures MonthIndex(a) == MonthIndex(b) ==> a.year == b.year && a.month == b.month
    ensures Before(a, b) ==> MonthIndex(a) <= MonthIndex(b)
  {
  }

  /** A later date never matures earlier for the same term. */
  lemma AddMonthsIsMonotone(a: Date, b: Date, n: int)
    requires Valid(a) && Valid(b) && Before(a, b)
    ensures !Before(AddMonths(b, n), AddMonths(a, n))
  {
  }

  /** A longer term matures strictly later. */
  lemma LongerTermMaturesLater(d: Date, n: int, m: int)
    requires Valid(d) && n < m
    ensures Before(AddMonths(d, n), AddMonths(d, m))
  {
  }

  /** Two steps reach the same month as one, and the same day unless the middle month clamps it further. */
  lemma AddMonthsComposes(d: Date, n: int, m: int)
    requires Valid(d)
    ensures var mid, once := AddMonths(d, n), AddMonths(d, n + m);
            var twice := AddMonths(mid, m);
            && twice.year == once.year && twice.month == once.month && twice.day <= once.day
            && (twice == once <==>
                  d.day <= DaysIn(mid.year, mid.month) || DaysIn(once.year, once.month) <= DaysIn(mid.year, mid.month))
  {
  }

  /** The analytics offset replaces year and month; None is the ValueError of a day the month lacks. */
  function MonthOffset(d: Date, offset: int): Option<Date> {
    var index := d.year * 12 + d.month - 1 + offset;
    var shifted := Date(index / 12, index % 12 + 1, d.day);
    if Valid(shifted) then Some(shifted) else None
  }

  /** On first-of-month dates the offset is total, additive and invertible. */
  lemma MonthOffsetIsAnAction(d: Date, n: int, m: int)
    requires Valid(d) && d.day == 1
    ensures MonthOffset(d, n).Some? && MonthOffset(d, n).value.day == 1
    ensures MonthIndex(MonthOffset(d, n).value) == MonthIndex(d) + n
    ensures MonthOffset(MonthOffset(d, n).value, m) == MonthOffset(d, n + m)
    ensures MonthOffset(MonthOffset(d, n).value, -n) == Some(d)
  {
  }

  /** Off the first of the month the offset raises exactly when the target month is too short. */
  lemma MonthOffsetRaises(d: Date, n: int)
    requires Valid(d)
    ensures MonthOffset(d, n).None? <==> AddMonths(d, n).day < d.day
  {
  }

  /** The twelve buckets ending at a first of month partition the window they span. */
  lemma TwelveBucketsPartitionTheWindow(end: Date, t: Date)
    requires Valid(end) && end.day == 1 && Valid(t)
    ensures var start, limit := MonthOffset(end, -11).value, MonthOffset(end, 1).value;
            !Before(t, start) && Before(t, limit) <==>
            exists k :: -11 <= k <= 0 && MonthIndex(MonthOffset(end, k).value) == MonthIndex(t)
    ensures forall j, k :: j != k ==> MonthIndex(MonthOffset(end, j).value) != MonthIndex(MonthOffset(end, k).value)
  {
    forall k: int
      ensures MonthOffset(end, k).Some? && MonthIndex(MonthOffset(end, k).value) == MonthIndex(end) + k
    {
      MonthOffsetIsAnAction(end, k, 0);
    }
    MonthOffsetIsAnAction(end, -11, 0);
    MonthOffsetIsAnAction(end, 1, 0);
    OrderOfMonths(t, MonthOffset(end, -11).value);
    OrderOfMonths(t, MonthOffset(end, 1).value);
    OrderOfMonths(MonthOffset(end, 1).value, t);
    OrderOfMonths(MonthOffset(end, -11).value, t);
    var k := MonthIndex(t) - MonthIndex(end);
    assert MonthIndex(MonthOffset(end, k).value) == MonthIndex(t);
  }
}
