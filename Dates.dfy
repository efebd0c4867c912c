/** Calendar dates at the granularity the reports use: whole months. */
module Dates {

  type MonthNum = m: int | 1 <= m <= 12 witness 1
  type DayNum = d: int | 1 <= d <= 31 witness 1

  datatype Date = Date(year: int, month: MonthNum, day: DayNum)

  /** Months counted from January of year 0: consecutive months have
      consecutive indices. */
  function MonthIndex(d: Date): int {
    d.year * 12 + d.month - 1
  }

  /** The first day of the month with the given index. */
  function FirstOfIndex(i: int): (d: Date)
    ensures MonthIndex(d) == i && d.day == 1
  {
    Date(i / 12, i % 12 + 1, 1)
  }

  /** The calendar order of dates (Python's <= on date). */
  predicate DateLe(a: Date, b: Date) {
    a.year < b.year
    || (a.year == b.year && a.month < b.month)
    || (a.year == b.year && a.month == b.month && a.day <= b.day)
  }

  /** `to_period("M")` equality: the two dates fall in the same month. */
  predicate SameMonth(a: Date, b: Date) {
    a.year == b.year && a.month == b.month
  }

  /** first_day_of_month: the same year and month, day 1. */
  function FirstDayOfMonth(d: Date): Date {
    Date(d.year, d.month, 1)
  }

  /** previous_month: the first day of the month before. */
  function PreviousMonth(d: Date): Date {
    if d.month == 1 then Date(d.year - 1, 12, 1) else Date(d.year, d.month - 1, 1)
  }

  lemma MonthIndexSameMonth(a: Date, b: Date)
    ensures SameMonth(a, b) <==> MonthIndex(a) == MonthIndex(b)
  {
  }

  lemma FirstOfIndexOfMonth(d: Date)
    ensures FirstOfIndex(MonthIndex(d)) == FirstDayOfMonth(d)
  {
    var i := MonthIndex(d);
    assert i / 12 == d.year && i % 12 == d.month - 1;
  }

  /** first_day_of_month keeps the month and moves to day 1. */
  lemma FirstDayOfMonthSpec(d: Date)
    ensures FirstDayOfMonth(d).day == 1
    ensures SameMonth(FirstDayOfMonth(d), d)
    ensures DateLe(FirstDayOfMonth(d), d)
  {
  }

  /** previous_month is day 1 of the month whose index is one less: January
      goes to December of the year before, every other month keeps its year. */
  lemma PreviousMonthSpec(d: Date)
    ensures PreviousMonth(d).day == 1
    ensures MonthIndex(PreviousMonth(d)) == MonthIndex(d) - 1
    ensures PreviousMonth(d) == FirstOfIndex(MonthIndex(d) - 1)
    ensures d.month == 1 ==> PreviousMonth(d).year == d.year - 1 && PreviousMonth(d).month == 12
    ensures d.month != 1 ==> PreviousMonth(d).year == d.year && PreviousMonth(d).month == d.month - 1
  {
    var i := MonthIndex(d) - 1;
    if d.month == 1 {
      assert i == (d.year - 1) * 12 + 11;
    } else {
      assert i == d.year * 12 + (d.month - 2);
    }
    assert i / 12 == PreviousMonth(d).year && i % 12 + 1 == PreviousMonth(d).month;
  }

  lemma DateLeMonthIndex(a: Date, b: Date)
    ensures DateLe(a, b) ==> MonthIndex(a) <= MonthIndex(b)
    ensures MonthIndex(a) < MonthIndex(b) ==> DateLe(a, b) && a != b
  {
    if DateLe(a, b) && a.year < b.year {
      assert MonthIndex(a) <= a.year * 12 + 11 < b.year * 12 <= MonthIndex(b);
    }
  }

  lemma DateLeTotal(a: Date, b: Date)
    ensures DateLe(a, b) || DateLe(b, a)
  {
  }

  lemma DateLeAntisym(a: Date, b: Date)
    requires DateLe(a, b) && DateLe(b, a)
    ensures a == b
  {
  }
}
