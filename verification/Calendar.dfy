/** Brazilian business days: national holidays, the search for the next business day and counting. */
module Calendar {
  import opened Civil
  import opened Easter

  predicate IsFixedHoliday(month: nat, day: nat) {
    || (month == 1 && day == 1)
    || (month == 4 && day == 21)
    || (month == 5 && day == 1)
    || (month == 9 && day == 7)
    || (month == 10 && day == 12)
    || (month == 11 && (day == 2 || day == 15 || day == 20))
    || (month == 12 && day == 25)
  }

  // Carnival Monday and Tuesday, Good Friday and Corpus Christi.
  const MOVABLE_OFFSETS := [-48, -47, -2, 60]

  predicate IsNationalHoliday(n: nat) {
    var date := DateOf(n);
    || IsFixedHoliday(date.month, date.day)
    || n - EasterSunday(date.year) in MOVABLE_OFFSETS
  }

  // A calendar is asked one thing: is this day a business day?
  type BusinessCalendar = nat -> bool

  const BRAZIL: BusinessCalendar := (n: nat) => IsBusinessDay(n)

  predicate IsBusinessDay(n: nat) {
    Weekday(n) != SATURDAY && Weekday(n) != SUNDAY && !IsNationalHoliday(n)
  }

  // ---- which days are closed

  // Every closed day, written out: Saturdays and Sundays (day 0 is a Saturday), nine dates, and four
  // days around Easter; every other day of the year is open.
  lemma ClosedExactly(y: nat, n: nat)
    requires DayNumber(Date(y, 1, 1)) <= n <= DayNumber(Date(y, 12, 31))
    ensures !BRAZIL(n) <==>
            || n % 7 == 0 || n % 7 == 1
            || n == DayNumber(Date(y, 1, 1)) || n == DayNumber(Date(y, 4, 21)) || n == DayNumber(Date(y, 5, 1))
            || n == DayNumber(Date(y, 9, 7)) || n == DayNumber(Date(y, 10, 12)) || n == DayNumber(Date(y, 11, 2))
            || n == DayNumber(Date(y, 11, 15)) || n == DayNumber(Date(y, 11, 20)) || n == DayNumber(Date(y, 12, 25))
            || n == EasterSunday(y) - 48 || n == EasterSunday(y) - 47 || n == EasterSunday(y) - 2 || n == EasterSunday(y) + 60
    ensures BRAZIL(n) == IsBusinessDay(n)
  {
    InYear(y, n);
    ClosedParts(y, n);
    FixedHolidays(y, n);
    hide EasterSunday, DateOf, DayNumber, IsFixedHoliday, BRAZIL, IsBusinessDay;
  }

  lemma ClosedParts(y: nat, n: nat)
    requires DateOf(n).year == y
    ensures !BRAZIL(n) <==>
            || n % 7 == 0 || n % 7 == 1 || IsFixedHoliday(DateOf(n).month, DateOf(n).day)
            || n == EasterSunday(y) - 48 || n == EasterSunday(y) - 47 || n == EasterSunday(y) - 2 || n == EasterSunday(y) + 60
    ensures BRAZIL(n) == IsBusinessDay(n)
  {
    hide EasterSunday, DateOf, IsFixedHoliday, Weekday;
    Weekend(n);
    MovableOffset(n - EasterSunday(y));
    hide MOVABLE_OFFSETS;
  }

  lemma InYear(y: nat, n: nat)
    requires DayNumber(Date(y, 1, 1)) <= n <= DayNumber(Date(y, 12, 31))
    ensures DateOf(n).year == y
  {
    hide DaysBeforeYear, YearOf;
    MonthTable(y);
    YearLength(y);
    YearOfUnique(n, y);
  }

  lemma Weekend(n: nat)
    ensures Weekday(n) == SATURDAY || Weekday(n) == SUNDAY <==> n % 7 == 0 || n % 7 == 1
  {
  }

  lemma FixedHolidays(y: nat, n: nat)
    requires DateOf(n).year == y
    ensures IsFixedHoliday(DateOf(n).month, DateOf(n).day) <==>
            || n == DayNumber(Date(y, 1, 1)) || n == DayNumber(Date(y, 4, 21)) || n == DayNumber(Date(y, 5, 1))
            || n == DayNumber(Date(y, 9, 7)) || n == DayNumber(Date(y, 10, 12)) || n == DayNumber(Date(y, 11, 2))
            || n == DayNumber(Date(y, 11, 15)) || n == DayNumber(Date(y, 11, 20)) || n == DayNumber(Date(y, 12, 25))
  {
    hide DateOf, DaysBeforeYear, DaysBeforeMonth, DayNumber;
    DateIs(n, Date(y, 1, 1));
    DateIs(n, Date(y, 4, 21));
    DateIs(n, Date(y, 5, 1));
    DateIs(n, Date(y, 9, 7));
    DateIs(n, Date(y, 10, 12));
    DateIs(n, Date(y, 11, 2));
    DateIs(n, Date(y, 11, 15));
    DateIs(n, Date(y, 11, 20));
    DateIs(n, Date(y, 12, 25));
    var d := DateOf(n);
    assert d == Date(y, d.month, d.day);
  }

  lemma DateIs(n: nat, d: Date)
    requires ValidDate(d)
    ensures n == DayNumber(d) <==> DateOf(n) == d
  {
    DateRoundTrip(d);
  }

  lemma MovableOffset(k: int)
    ensures k in MOVABLE_OFFSETS <==> k == -48 || k == -47 || k == -2 || k == 60
  {
    assert MOVABLE_OFFSETS[0] == -48 && MOVABLE_OFFSETS[1] == -47 && MOVABLE_OFFSETS[2] == -2 && MOVABLE_OFFSETS[3] == 60;
  }

  lemma ChristmasIsClosed(y: nat)
    ensures !BRAZIL(DayNumber(Date(y, 12, 25)))
  {
    hide EasterSunday, DateOf, DaysBeforeYear;
    MonthTable(y);
    ClosedExactly(y, DayNumber(Date(y, 12, 25)));
  }

  // ---- how dense holidays can be

  // Days of the year (from 0) of the fixed holidays; s is 1 after a leap day.
  predicate FixedDay(k: int, s: int) {
    k == 0 || k == 110 + s || k == 120 + s || k == 249 + s || k == 284 + s ||
    k == 305 + s || k == 318 + s || k == 323 + s || k == 358 + s
  }

  predicate MovableDay(k: int, easter: int) {
    k == easter - 48 || k == easter - 47 || k == easter - 2 || k == easter + 60
  }

  // Day n, counted from the first day of its year, is a holiday day of that year.
  predicate HolidayInYear(n: int, first: int, s: int, easter: int) {
    && 0 <= s <= 1 && 80 + s <= easter - first <= 114 + s
    && (FixedDay(n - first, s) || MovableDay(n - first, easter - first))
  }

  lemma HolidayDayOfYear(n: nat)
    requires IsNationalHoliday(n)
    ensures var y := YearOf(n);
            HolidayInYear(n, DaysBeforeYear(y), LeapDay(y), EasterSunday(y))
  {
    var date := DateOf(n);
    EasterDayOfYear(date.year);
    if IsFixedHoliday(date.month, date.day) {
      FixedDayOfYear(date);
    }
    hide EasterSunday, DaysBeforeYear, DaysBeforeMonth, YearOf;
  }

  lemma EasterDayOfYear(y: nat)
    ensures 80 + LeapDay(y) <= EasterSunday(y) - DaysBeforeYear(y) <= 114 + LeapDay(y) && 0 <= LeapDay(y) <= 1
  {
    hide EasterSunday, DaysBeforeYear;
    EasterRange(y);
    MonthTable(y);
  }

  lemma FixedDayOfYear(date: Date)
    requires ValidDate(date) && IsFixedHoliday(date.month, date.day)
    ensures FixedDay(DayNumber(date) - DaysBeforeYear(date.year), LeapDay(date.year))
  {
    hide DaysBeforeYear, DaysBeforeMonth;
    MonthTable(date.year);
  }

  // The days after a holiday, within a span of five, belong to the same year.
  lemma SameYear(a: nat, b: nat)
    requires IsNationalHoliday(a) && a < b <= a + 4
    ensures YearOf(b) == YearOf(a)
  {
    HolidayDayOfYear(a);
    var y := YearOf(a);
    YearLength(y);
    LastHoliday(a, DaysBeforeYear(y), LeapDay(y), EasterSunday(y));
    YearOfUnique(b, y);
  }

  lemma LastHoliday(n: int, first: int, s: int, easter: int)
    requires HolidayInYear(n, first, s, easter)
    ensures n - first <= 358 + s
  {
  }

  // No three days of one year within a span of five are all holidays.
  lemma NoThreeInOneYear(i: int, j: int, k: int, first: int, s: int, e: int)
    requires i < j < k <= i + 4
    ensures !(HolidayInYear(i, first, s, e) && HolidayInYear(j, first, s, e) && HolidayInYear(k, first, s, e))
  {
  }

  // A window of five days holds at most two national holidays.
  lemma AtMostTwoHolidays(a: nat, b: nat, c: nat)
    requires a < b < c <= a + 4
    requires IsNationalHoliday(a) && IsNationalHoliday(b)
    ensures !IsNationalHoliday(c)
  {
    if IsNationalHoliday(c) {
      HolidaysShareYear(a, b);
      HolidaysShareYear(a, c);
      var y := YearOf(a);
      NoThreeInOneYear(a, b, c, DaysBeforeYear(y), LeapDay(y), EasterSunday(y));
    }
  }

  lemma HolidaysShareYear(a: nat, b: nat)
    requires IsNationalHoliday(a) && IsNationalHoliday(b) && a < b <= a + 4
    ensures var y := YearOf(a);
            HolidayInYear(a, DaysBeforeYear(y), LeapDay(y), EasterSunday(y)) &&
            HolidayInYear(b, DaysBeforeYear(y), LeapDay(y), EasterSunday(y))
  {
    SameYear(a, b);
    HolidayDayOfYear(a);
    HolidayDayOfYear(b);
  }

  // Some day of the five starting at n is open.
  ghost predicate OpensWithinFive(cal: BusinessCalendar, n: nat) {
    exists d :: n <= d <= n + 4 && cal(d)
  }

  ghost predicate NeverClosedFiveDays(cal: BusinessCalendar) {
    forall n :: OpensWithinFive(cal, n)
  }

  // No five consecutive days are all closed in Brazil, in any year.
  lemma BrazilNeverClosedFiveDays()
    ensures NeverClosedFiveDays(BRAZIL)
  {
    forall n: nat
      ensures OpensWithinFive(BRAZIL, n)
    {
      FiveDaysHoldABusinessDay(n);
    }
  }

  lemma FiveDaysHoldABusinessDay(n: nat)
    ensures OpensWithinFive(BRAZIL, n)
  {
    hide IsNationalHoliday;
    var a, b, c := ThreeWeekdays(n);
    if !IsNationalHoliday(a) {
      assert BRAZIL(a);
    } else if !IsNationalHoliday(b) {
      assert BRAZIL(b);
    } else {
      AtMostTwoHolidays(a, b, c);
      assert BRAZIL(c);
    }
  }

  lemma ThreeWeekdays(n: nat) returns (a: nat, b: nat, c: nat)
    ensures n <= a < b < c <= n + 4
    ensures forall d :: d == a || d == b || d == c ==> Weekday(d) != SATURDAY && Weekday(d) != SUNDAY
  {
    match Weekday(n) {
      case 4 => a, b, c := n, n + 1, n + 4;
      case 5 => a, b, c := n, n + 3, n + 4;
      case 6 => a, b, c := n + 2, n + 3, n + 4;
      case 0 => a, b, c := n + 1, n + 2, n + 3;
      case _ => a, b, c := n, n + 1, n + 2;
    }
  }

  lemma FixedHolidayClosed(date: Date)
    requires ValidDate(date) && IsFixedHoliday(date.month, date.day)
    ensures !BRAZIL(DayNumber(date))
  {
    DateRoundTrip(date);
  }

  lemma GoodFridayClosed(y: nat)
    ensures EasterSunday(y) >= 2 && !BRAZIL((EasterSunday(y) - 2) as nat)
  {
    EasterRange(y);
    MonthTable(y);
    YearLength(y);
    YearOfUnique(EasterSunday(y) - 2, y);
    assert MOVABLE_OFFSETS[2] == -2;
  }

  // The bound of four days is reached: in a year with Easter on 20 April (2025
  // is one), every day from Good Friday to Tiradentes is closed.
  lemma FourClosedDaysHappen(y: nat)
    requires EasterDate(y) == Date(y, 4, 20)
    ensures var tiradentes := DayNumber(Date(y, 4, 21));
            tiradentes >= 3 && forall d: nat :: tiradentes - 3 <= d <= tiradentes ==> !BRAZIL(d)
  {
    GoodFridayClosed(y);
    EasterIsSundayInRange(y);
    FixedHolidayClosed(Date(y, 4, 21));
    SaturdayBefore(EasterSunday(y));
    AllFour(BRAZIL, DayNumber(Date(y, 4, 21)));
  }

  lemma AllFour(cal: BusinessCalendar, n: nat)
    requires n >= 3 && !cal(n - 3) && !cal(n - 2) && !cal(n - 1) && !cal(n)
    ensures forall d: nat :: n - 3 <= d <= n ==> !cal(d)
  {
  }

  lemma SaturdayBefore(n: nat)
    requires n > 0 && Weekday(n) == SUNDAY
    ensures !BRAZIL((n - 1) as nat) && !BRAZIL(n)
  {
    assert Weekday(n - 1) == SATURDAY;
  }

  // ---- the next business day

  // d is the least business day on or after t.
  ghost predicate IsNextBusinessDay(cal: BusinessCalendar, t: nat, d: nat) {
    t <= d && cal(d) && forall x :: t <= x < d ==> !cal(x)
  }

  method NextBusinessDay(cal: BusinessCalendar, instant: nat) returns (d: nat)
    requires NeverClosedFiveDays(cal)
    ensures IsNextBusinessDay(cal, DateOnly(instant), d)
    ensures d <= DateOnly(instant) + 4
  {
    ghost var t := DateOnly(instant);
    d := DateOnly(instant);
    assert OpensWithinFive(cal, t);
    while !cal(d)
      invariant t <= d <= t + 4
      invariant forall x :: t <= x < d ==> !cal(x)
      decreases t + 4 - d
    {
      d := d + 1;
    }
  }

  lemma NextBusinessExists(cal: BusinessCalendar, t: nat)
    requires NeverClosedFiveDays(cal)
    ensures exists d: nat :: IsNextBusinessDay(cal, t, d) && d <= t + 4
  {
    assert OpensWithinFive(cal, t);
    if cal(t) {
      assert IsNextBusinessDay(cal, t, t);
    } else if cal(t + 1) {
      assert IsNextBusinessDay(cal, t, t + 1);
    } else if cal(t + 2) {
      assert IsNextBusinessDay(cal, t, t + 2);
    } else if cal(t + 3) {
      assert IsNextBusinessDay(cal, t, t + 3);
    } else {
      assert IsNextBusinessDay(cal, t, t + 4);
    }
  }

  // The same day as a value: what a schedule is specified with.
  ghost function NextBusiness(cal: BusinessCalendar, t: nat): (d: nat)
    requires NeverClosedFiveDays(cal)
    ensures IsNextBusinessDay(cal, t, d) && d <= t + 4
  {
    NextBusinessExists(cal, t);
    var d: nat :| IsNextBusinessDay(cal, t, d) && d <= t + 4;
    d
  }

  lemma NextBusinessUnique(cal: BusinessCalendar, t: nat, d: nat)
    requires NeverClosedFiveDays(cal)
    requires IsNextBusinessDay(cal, t, d)
    ensures d == NextBusiness(cal, t)
  {
    var e := NextBusiness(cal, t);
    assert !(d < e) && !(e < d);
  }

  lemma NextBusinessIdempotentMonotone(cal: BusinessCalendar, t: nat, u: nat)
    requires NeverClosedFiveDays(cal)
    requires t <= u
    ensures NextBusiness(cal, NextBusiness(cal, t)) == NextBusiness(cal, t)
    ensures NextBusiness(cal, t) <= NextBusiness(cal, u)
  {
    var d := NextBusiness(cal, t);
    NextBusinessUnique(cal, d, d);
    assert !(t <= NextBusiness(cal, u) < d);
  }

  // ---- counting business days

  // How many business days lie in (t, d].
  function BusinessDaysUpTo(cal: BusinessCalendar, t: nat, d: nat): nat
    requires t <= d
    decreases d
  {
    if d == t then 0 else BusinessDaysUpTo(cal, t, d - 1) + (if cal(d) then 1 else 0)
  }

  // The n-th business day after t; t itself when n is not positive.
  ghost function AfterBusinessDays(cal: BusinessCalendar, t: nat, n: int): nat
    requires NeverClosedFiveDays(cal)
    decreases n
  {
    if n <= 0 then t else NextBusiness(cal, AfterBusinessDays(cal, t, n - 1) + 1)
  }

  method AddBusinessDays(cal: BusinessCalendar, instant: nat, n: int) returns (d: nat)
    requires NeverClosedFiveDays(cal)
    ensures d == AfterBusinessDays(cal, DateOnly(instant), n)
    ensures n <= 0 ==> d == DateOnly(instant)
  {
    ghost var t := DateOnly(instant);
    d := DateOnly(instant);
    var left := n;
    ghost var last, goal := d, NextBusiness(cal, d + 1);  // the last day counted and the next one to count
    while left > 0
      invariant left == n || 0 <= left < n
      invariant last == AfterBusinessDays(cal, t, n - left)
      invariant goal == NextBusiness(cal, last + 1)
      invariant last <= d < goal && (left <= 0 ==> d == last)
      decreases left, goal - d
    {
      d := d + 1;
      if cal(d) {
        assert d == goal;
        left := left - 1;
        last, goal := d, NextBusiness(cal, d + 1);
      }
    }
  }

  lemma {:induction false} CountJump(cal: BusinessCalendar, t: nat, d: nat, e: nat)
    requires t <= d < e && forall x :: d < x < e ==> !cal(x)
    ensures BusinessDaysUpTo(cal, t, e) == BusinessDaysUpTo(cal, t, d) + (if cal(e) then 1 else 0)
  {
    if d < e - 1 {
      CountJump(cal, t, d, e - 1);
    }
  }

  lemma {:induction false} CountIncreases(cal: BusinessCalendar, t: nat, d: nat, e: nat)
    requires t <= d <= e
    ensures BusinessDaysUpTo(cal, t, d) <= BusinessDaysUpTo(cal, t, e)
    ensures d < e && cal(e) ==> BusinessDaysUpTo(cal, t, d) < BusinessDaysUpTo(cal, t, e)
  {
    if d < e {
      CountIncreases(cal, t, d, e - 1);
    }
  }

  // Adding n > 0 business days reaches a business day with exactly n of them passed, within 5n days.
  lemma {:induction false} AfterBusinessDaysCounts(cal: BusinessCalendar, t: nat, n: nat)
    requires NeverClosedFiveDays(cal)
    ensures t + n <= AfterBusinessDays(cal, t, n) <= t + 5 * n
    ensures n > 0 ==> cal(AfterBusinessDays(cal, t, n))
    ensures BusinessDaysUpTo(cal, t, AfterBusinessDays(cal, t, n)) == n
  {
    if n > 0 {
      AfterBusinessDaysCounts(cal, t, n - 1);
      CountJump(cal, t, AfterBusinessDays(cal, t, n - 1), AfterBusinessDays(cal, t, n));
    }
  }

  // ... and it is the only such day.
  lemma AfterBusinessDaysUnique(cal: BusinessCalendar, t: nat, n: nat, d: nat)
    requires NeverClosedFiveDays(cal)
    requires n > 0 && t < d
    ensures d == AfterBusinessDays(cal, t, n) <==> cal(d) && BusinessDaysUpTo(cal, t, d) == n
  {
    AfterBusinessDaysCounts(cal, t, n);
    var e := AfterBusinessDays(cal, t, n);
    if cal(d) {
      if d < e {
        CountIncreases(cal, t, d, e);
      } else {
        CountIncreases(cal, t, e, d);
      }
    }
  }

  lemma {:induction false} AfterBusinessDaysAdds(cal: BusinessCalendar, t: nat, m: nat, n: nat)
    requires NeverClosedFiveDays(cal)
    ensures AfterBusinessDays(cal, t, m + n) == AfterBusinessDays(cal, AfterBusinessDays(cal, t, m), n)
    ensures n > 0 ==> AfterBusinessDays(cal, t, m) < AfterBusinessDays(cal, t, m + n)
  {
    if n > 0 {
      AfterBusinessDaysAdds(cal, t, m, n - 1);
    }
  }
}
