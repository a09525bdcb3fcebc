/** Which months the monthly revenue loop of the reports page visits. Each
    pass takes today's date and moves it back `i` months with
    `date.setMonth(date.getMonth() - i)`, which keeps the day of the month;
    a day the target month does not have rolls over into the next month.
    Months are numbered from 0 (January), as in JavaScript. */
module Calendar {

  predicate IsLeapYear(y: int) {
    y % 4 == 0 && (y % 100 != 0 || y % 400 == 0)
  }

  /** The number of days of month `m` of year `y`. */
  function DaysIn(y: int, m: int): (n: int)
    requires 0 <= m < 12
    ensures 28 <= n <= 31
  {
    if m == 1 then (if IsLeapYear(y) then 29 else 28)
    else if m == 3 || m == 5 || m == 8 || m == 10 then 30
    else 31
  }

  /** A date of the local calendar: year, month 0-11, day of the month from 1. */
  datatype Date = Date(year: int, month: int, day: int)

  predicate ValidDate(d: Date) {
    0 <= d.month < 12 && 1 <= d.day <= DaysIn(d.year, d.month)
  }

  /** The month of a date, counted from January of year 0. */
  function MonthIndex(d: Date): int {
    d.year * 12 + d.month
  }

  /** `new Date(y, m, day)`, as `setMonth` normalises it: a month outside
      0-11 carries into the year, and a day past the end of the month rolls
      over into the next month. (December has 31 days, so a roll-over never
      crosses into the next year.) */
  function MakeDate(y: int, m: int, day: int): (r: Date)
    requires 1 <= day <= 31
    ensures ValidDate(r)
    ensures MonthIndex(r) == y * 12 + m <==> r.day == day
    ensures MonthIndex(r) == y * 12 + m || MonthIndex(r) == y * 12 + m + 1
    ensures day <= 28 ==> MonthIndex(r) == y * 12 + m
  {
    var y1, m1 := y + m / 12, m % 12;
    if day <= DaysIn(y1, m1) then Date(y1, m1, day)
    else Date(y1, m1 + 1, day - DaysIn(y1, m1))
  }

  /** The date of pass `i`: `date.setMonth(date.getMonth() - i)` on `today`. */
  function SetMonthBack(today: Date, i: int): Date
    requires ValidDate(today)
  {
    MakeDate(today.year, today.month - i, today.day)
  }

  /** The months the six passes visit, for i from 5 down to 0, oldest first. */
  function VisitedMonths(today: Date): (r: seq<int>)
    requires ValidDate(today)
    ensures |r| == 6
  {
    seq(6, k requires 0 <= k < 6 => MonthIndex(SetMonthBack(today, 5 - k)))
  }

  /** Up to the 28th, pass `k` visits the month `5 - k` months back: the six
      passes visit the last six months, each once, oldest first. */
  lemma EarlyInTheMonthVisitsTheLastSixMonths(today: Date)
    requires ValidDate(today) && today.day <= 28
    ensures forall k :: 0 <= k < 6 ==> VisitedMonths(today)[k] == MonthIndex(today) - 5 + k
  {
  }

  /** As written, on July 31, 2025 the passes visit March, March, May, May,
      July and July: February, April and June do not exist on the 31st and
      roll over into the next month, so three months are listed twice and
      three are missing. */
  lemma EndOfJulyRepeatsMonths()
    ensures var m := VisitedMonths(Date(2025, 6, 31));
            var year := 2025 * 12;
            m == [year + 2, year + 2, year + 4, year + 4, year + 6, year + 6]
  {
    var today := Date(2025, 6, 31);
    assert SetMonthBack(today, 5) == Date(2025, 2, 3);
    assert SetMonthBack(today, 4) == Date(2025, 2, 31);
    assert SetMonthBack(today, 3) == Date(2025, 4, 1);
    assert SetMonthBack(today, 2) == Date(2025, 4, 31);
    assert SetMonthBack(today, 1) == Date(2025, 6, 1);
    assert SetMonthBack(today, 0) == today;
  }

  /** Corrected: move back from the first of the month, `new Date(y, m - i, 1)`. */
  function VisitedMonthsFixed(today: Date): (r: seq<int>)
    requires ValidDate(today)
    ensures |r| == 6
  {
    VisitedMonths(today.(day := 1))
  }

  /** The corrected passes always visit the last six months, each once,
      oldest first, ending with the current month. */
  lemma FixedVisitsTheLastSixMonths(today: Date)
    requires ValidDate(today)
    ensures forall k :: 0 <= k < 6 ==> VisitedMonthsFixed(today)[k] == MonthIndex(today) - 5 + k
    ensures forall j, k :: 0 <= j < k < 6 ==> VisitedMonthsFixed(today)[j] < VisitedMonthsFixed(today)[k]
  {
    EarlyInTheMonthVisitsTheLastSixMonths(today.(day := 1));
  }
}
