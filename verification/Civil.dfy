/** The proleptic Gregorian calendar: dates, day numbers and weekdays. Day 0 is 1 January of year 0. */
module Civil {

  datatype Date = Date(year: nat, month: nat, day: nat)

  predicate IsLeap(y: nat) {
    y % 4 == 0 && (y % 100 != 0 || y % 400 == 0)
  }

  // 1 in a leap year: the day that shifts every date after February.
  function LeapDay(y: nat): nat {
    if IsLeap(y) then 1 else 0
  }

  function DaysInMonth(y: nat, m: nat): nat {
    if m == 2 then 28 + LeapDay(y)
    else if m == 4 || m == 6 || m == 9 || m == 11 then 30
    else 31
  }

  predicate ValidDate(d: Date) {
    1 <= d.month <= 12 && 1 <= d.day <= DaysInMonth(d.year, d.month)
  }

  function DaysBeforeYear(y: nat): nat {
    365 * y + (y + 3) / 4 - (y + 99) / 100 + (y + 399) / 400
  }

  function DaysBeforeMonth(y: nat, m: nat): nat
    requires 1 <= m <= 12
  {
    if m == 1 then 0 else DaysBeforeMonth(y, m - 1) + DaysInMonth(y, m - 1)
  }

  function DayNumber(d: Date): nat
    requires ValidDate(d)
  {
    DaysBeforeYear(d.year) + DaysBeforeMonth(d.year, d.month) + d.day - 1
  }

  lemma YearLength(y: nat)
    ensures DaysBeforeYear(y + 1) == DaysBeforeYear(y) + 365 + LeapDay(y)
  {
    assert (y + 4) / 4 - (y + 3) / 4 == if y % 4 == 0 then 1 else 0;
    assert (y + 100) / 100 - (y + 99) / 100 == if y % 100 == 0 then 1 else 0;
    assert (y + 400) / 400 - (y + 399) / 400 == if y % 400 == 0 then 1 else 0;
    Divides(y);
  }

  lemma Divides(y: nat)
    ensures y % 400 == 0 ==> y % 100 == 0
    ensures y % 100 == 0 ==> y % 4 == 0
  {
    assert y % 400 == 0 ==> y == 100 * (4 * (y / 400));
    assert y % 100 == 0 ==> y == 4 * (25 * (y / 100));
  }

  lemma {:induction false} YearsIncrease(x: nat, y: nat)
    requires x <= y
    ensures DaysBeforeYear(x) + 365 * (y - x) <= DaysBeforeYear(y)
  {
    if x < y {
      YearsIncrease(x, y - 1);
      YearLength(y - 1);
    }
  }

  lemma YearsOrdered(x: nat, y: nat)
    ensures x <= y ==> DaysBeforeYear(x) <= DaysBeforeYear(y)
  {
    if x <= y {
      YearsIncrease(x, y);
    }
  }

  lemma {:induction false} MonthsIncrease(y: nat, m: nat, p: nat)
    requires 1 <= m < p <= 12
    ensures DaysBeforeMonth(y, m) + DaysInMonth(y, m) <= DaysBeforeMonth(y, p)
  {
    if m < p - 1 {
      MonthsIncrease(y, m, p - 1);
    }
  }

  lemma MonthTable(y: nat)
    ensures DaysBeforeMonth(y, 1) == 0 && DaysBeforeMonth(y, 2) == 31
    ensures DaysBeforeMonth(y, 3) == 59 + LeapDay(y) && DaysBeforeMonth(y, 4) == 90 + LeapDay(y)
    ensures DaysBeforeMonth(y, 5) == 120 + LeapDay(y) && DaysBeforeMonth(y, 6) == 151 + LeapDay(y)
    ensures DaysBeforeMonth(y, 7) == 181 + LeapDay(y) && DaysBeforeMonth(y, 8) == 212 + LeapDay(y)
    ensures DaysBeforeMonth(y, 9) == 243 + LeapDay(y) && DaysBeforeMonth(y, 10) == 273 + LeapDay(y)
    ensures DaysBeforeMonth(y, 11) == 304 + LeapDay(y) && DaysBeforeMonth(y, 12) == 334 + LeapDay(y)
  {
    assert DaysBeforeMonth(y, 2) == 31;
    assert DaysBeforeMonth(y, 3) == 59 + LeapDay(y);
    assert DaysBeforeMonth(y, 5) == 120 + LeapDay(y);
    assert DaysBeforeMonth(y, 7) == 181 + LeapDay(y);
    assert DaysBeforeMonth(y, 9) == 243 + LeapDay(y);
    assert DaysBeforeMonth(y, 11) == 304 + LeapDay(y);
  }

  // The year a day falls in, searched upward from a year that is not later.
  function YearFrom(y: nat, n: nat): (r: nat)
    requires DaysBeforeYear(y) <= n
    ensures DaysBeforeYear(r) <= n < DaysBeforeYear(r + 1)
    decreases n - DaysBeforeYear(y)
  {
    YearLength(y);
    if n < DaysBeforeYear(y + 1) then y else YearFrom(y + 1, n)
  }

  function YearOf(n: nat): (y: nat)
    ensures DaysBeforeYear(y) <= n < DaysBeforeYear(y + 1)
  {
    YearFrom(0, n)
  }

  lemma YearOfUnique(n: nat, y: nat)
    requires DaysBeforeYear(y) <= n < DaysBeforeYear(y + 1)
    ensures YearOf(n) == y
  {
    YearsOrdered(YearOf(n) + 1, y);
    YearsOrdered(y + 1, YearOf(n));
  }

  function MonthFrom(y: nat, m: nat, k: nat): (r: nat)
    requires 1 <= m <= 12 && DaysBeforeMonth(y, m) <= k < 365 + LeapDay(y)
    ensures 1 <= r <= 12 && DaysBeforeMonth(y, r) <= k < DaysBeforeMonth(y, r) + DaysInMonth(y, r)
    decreases 12 - m
  {
    MonthTable(y);
    if k < DaysBeforeMonth(y, m) + DaysInMonth(y, m) then m else MonthFrom(y, m + 1, k)
  }

  function DateOf(n: nat): (d: Date)
    ensures ValidDate(d) && DayNumber(d) == n
  {
    var y := YearOf(n);
    YearLength(y);
    var k := n - DaysBeforeYear(y);
    var m := MonthFrom(y, 1, k);
    Date(y, m, k - DaysBeforeMonth(y, m) + 1)
  }

  lemma DayOfYearBounds(d: Date)
    requires ValidDate(d)
    ensures DaysBeforeYear(d.year) <= DayNumber(d) < DaysBeforeYear(d.year + 1)
  {
    YearLength(d.year);
    MonthTable(d.year);
    if d.month < 12 {
      MonthsIncrease(d.year, d.month, 12);
    }
  }

  // Reading the date of a day number undoes numbering it (the other direction
  // is the contract of DateOf).
  lemma DateRoundTrip(d: Date)
    requires ValidDate(d)
    ensures DateOf(DayNumber(d)) == d
  {
    DayOfYearBounds(d);
    YearOfUnique(DayNumber(d), d.year);
    var m := DateOf(DayNumber(d)).month;
    if m < d.month {
      MonthsIncrease(d.year, m, d.month);
    } else if d.month < m {
      MonthsIncrease(d.year, d.month, m);
    }
  }

  // The lengths of the months, with the rule of leap years.
  function MonthLengths(y: nat): seq<nat> {
    [31, if y % 4 == 0 && (y % 100 != 0 || y % 400 == 0) then 29 else 28, 31, 30, 31, 30, 31, 31, 30, 31, 30, 31]
  }

  // The day after a date: the next day of the month, or the first of the next month or year.
  function NextDate(d: Date): Date
    requires 1 <= d.month <= 12
  {
    if d.day < MonthLengths(d.year)[d.month - 1] then Date(d.year, d.month, d.day + 1)
    else if d.month < 12 then Date(d.year, d.month + 1, 1)
    else Date(d.year + 1, 1, 1)
  }

  lemma LengthOfMonth(y: nat, m: nat)
    requires 1 <= m <= 12
    ensures MonthLengths(y)[m - 1] == DaysInMonth(y, m)
  {
  }

  // Day numbers count the days one after the other, from 1 January of year 0.
  lemma DaysFollow(n: nat)
    ensures DateOf(n + 1) == NextDate(DateOf(n))
  {
    hide DateOf, YearOf, DaysBeforeYear, DaysBeforeMonth, MonthLengths;
    var d := DateOf(n);
    LengthOfMonth(d.year, d.month);
    var next := NextDate(d);
    NextDayNumber(d);
    DateRoundTrip(next);
  }

  lemma NextDayNumber(d: Date)
    requires ValidDate(d)
    ensures ValidDate(NextDate(d)) && DayNumber(NextDate(d)) == DayNumber(d) + 1
  {
    hide DaysBeforeYear, MonthLengths;
    LengthOfMonth(d.year, d.month);
    MonthTable(d.year);
    MonthTable(d.year + 1);
    YearLength(d.year);
  }

  lemma FirstDay()
    ensures DayNumber(Date(0, 1, 1)) == 0
  {
  }

  const SUNDAY := 0
  const SATURDAY := 6

  // 1 January of year 0 is a Saturday: 400 years are a whole number of weeks.
  function Weekday(n: nat): nat {
    (n + SATURDAY) % 7
  }

  // An instant is a count of seconds in UTC; DateOnly drops the time of day.
  const SECONDS_PER_DAY := 86400

  function DateOnly(instant: nat): nat {
    instant / SECONDS_PER_DAY
  }

  // The day of an instant is the one whose 24 hours it lies in; a day has 86400 seconds.
  lemma DayOfInstant(instant: nat)
    ensures 86400 * DateOnly(instant) <= instant < 86400 * DateOnly(instant) + 86400
  {
  }

  // Weekdays follow one another, and 25 December 2025 is a Thursday, the fourth after Sunday.
  lemma Weekdays(n: nat)
    ensures Weekday(n + 1) == if Weekday(n) == 6 then 0 else Weekday(n) + 1
    ensures DayNumber(Date(2025, 12, 25)) == 739975 && Weekday(739975) == 4
  {
    MonthTable(2025);
  }
}
