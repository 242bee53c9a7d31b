/** The Meeus/Jones/Butcher algorithm, and the epact computus it must agree with. */
module Easter {
  import opened Civil

  // h: how many days after 21 March the tabular full moon falls, before correction.
  function MoonOffset(y: nat): nat {
    var a, b := y % 19, y / 100;
    var d, f := b / 4, (b + 8) / 25;
    var g := (b - f + 1) / 3;
    (19 * a + b - d - g + 15) % 30
  }

  // l: days from h to the day before the next Sunday.
  function SundayOffset(y: nat): nat {
    var b, c := y / 100, y % 100;
    (32 + 2 * (b % 4) + 2 * (c / 4) - MoonOffset(y) - c % 4) % 7
  }

  // The algorithm's last steps: month and day are packed in one number.
  function Packed(y: nat): int {
    var a, h, l := y % 19, MoonOffset(y), SundayOffset(y);
    var m := (a + 11 * h + 22 * l) / 451;
    h + l - 7 * m + 114
  }

  function EasterDate(y: nat): (d: Date)
    ensures ValidDate(d) && d.year == y
  {
    PackedBounds(y);
    Date(y, Packed(y) / 31, Packed(y) % 31 + 1)
  }

  function EasterSunday(y: nat): nat {
    DayNumber(EasterDate(y))
  }

  // h after the two corrections of the Gregorian reform.
  function CorrectedMoonOffset(y: nat): nat {
    var h := MoonOffset(y);
    if h == 29 then 28 else if h == 28 && y % 19 >= 11 then 27 else h
  }

  // The correction m is one week, taken exactly when the Sunday found is a week late.
  lemma PackedBounds(y: nat)
    ensures 114 <= Packed(y) <= 148
    ensures Packed(y) - 114 ==
            MoonOffset(y) + SundayOffset(y) - (if SundayOffset(y) == 6 && CorrectedMoonOffset(y) < MoonOffset(y) then 7 else 0)
  {
    var a, h, l := y % 19, MoonOffset(y), SundayOffset(y);
    assert 0 <= a <= 18 && 0 <= h <= 29 && 0 <= l <= 6;
    WeekCorrection(a, h, l);
  }

  lemma WeekCorrection(a: int, h: int, l: int)
    requires 0 <= a <= 18 && 0 <= h <= 29 && 0 <= l <= 6
    ensures (a + 11 * h + 22 * l) / 451 == if l == 6 && (h == 29 || (h == 28 && a >= 11)) then 1 else 0
  {
  }

  // Every Easter lies between 22 March and 25 April.
  lemma EasterRange(y: nat)
    ensures EasterSunday(y) == DayNumber(Date(y, 3, 22)) + (Packed(y) - 114)
    ensures DayNumber(Date(y, 3, 22)) <= EasterSunday(y) <= DayNumber(Date(y, 4, 25))
    ensures (EasterDate(y).month == 3 && EasterDate(y).day >= 22) || (EasterDate(y).month == 4 && EasterDate(y).day <= 25)
  {
    PackedBounds(y);
    MonthTable(y);
  }

  lemma {:induction false} CenturyDays(d: nat, e: nat, i: nat, k: nat)
    requires e < 4 && i < 25 && k < 4
    ensures var y := 400 * d + 100 * e + 4 * i + k;
            DayNumber(Date(y, 3, 22)) == 146097 * d + 36524 * e + 1461 * i + 365 * k + 81
  {
    var y := 400 * d + 100 * e + 4 * i + k;
    MonthTable(y);
    LeapsThrough(d, e, i, k);
  }

  // Leap years up to and including y.
  lemma LeapsThrough(d: nat, e: nat, i: nat, k: nat)
    requires e < 4 && i < 25 && k < 4
    ensures var y := 400 * d + 100 * e + 4 * i + k;
            DaysBeforeYear(y) + LeapDay(y) == 365 * y + 97 * d + 24 * e + i + 1
  {
    var y := 400 * d + 100 * e + 4 * i + k;
    YearLength(y);
    assert (y + 4) / 4 == 100 * d + 25 * e + i + 1;
    assert (y + 100) / 100 == 4 * d + e + 1;
    assert (y + 400) / 400 == d + 1;
  }

  lemma MarchWeekday(y: nat)
    ensures (DayNumber(Date(y, 3, 22)) + SATURDAY + MoonOffset(y) + SundayOffset(y)) % 7 == SUNDAY
  {
    var b, c := y / 100, y % 100;
    var d, e, i, k := b / 4, b % 4, c / 4, c % 4;
    assert y == 400 * d + 100 * e + 4 * i + k;
    CenturyDays(d, e, i, k);
    SundayCongruence(d, e, i, k, MoonOffset(y));
  }

  lemma SundayCongruence(d: nat, e: nat, i: nat, k: nat, h: nat)
    requires e < 4 && i < 25 && k < 4 && h < 30
    ensures (146097 * d + 36524 * e + 1461 * i + 365 * k + 81 + SATURDAY + h + (32 + 2 * e + 2 * i - h - k) % 7) % 7 == SUNDAY
  {
    var v := 32 + 2 * e + 2 * i - h - k;
    var n := 146097 * d + 36524 * e + 1461 * i + 365 * k + 81 + SATURDAY + h + v % 7;
    assert v % 7 == v - 7 * (v / 7);
    var weeks := 20871 * d + 5218 * e + 209 * i + 52 * k + 17 - v / 7;
    assert n == 7 * weeks;
    MultipleOfSeven(weeks);
  }

  lemma MultipleOfSeven(q: int)
    ensures 7 * q % 7 == 0
  {
  }

  // The epact computus of the Gregorian reform: golden number, century, the solar
  // and lunar corrections, and the epact decide the full moon, as a day of March.
  function PaschalMoonOfMarch(y: nat): int {
    var golden, century := y % 19 + 1, y / 100 + 1;
    var solar := 3 * century / 4 - 12;
    var lunar := (8 * century + 5) / 25 - 5;
    var epact := (11 * golden + 20 + lunar - solar) % 30;
    var corrected := if epact == 24 || (epact == 25 && golden > 11) then epact + 1 else epact;
    if 44 - corrected < 21 then 74 - corrected else 44 - corrected
  }

  lemma CenturyCorrections(b: nat)
    ensures (b - (b + 8) / 25 + 1) / 3 == (8 * (b + 1) + 5) / 25
    ensures b - b / 4 == 3 * (b + 1) / 4
  {
    var q, r := (b + 8) / 25, (b + 8) % 25;
    assert b == 25 * q + r - 8;
    assert (24 * q + r - 7) / 3 == 8 * q + (r - 7) / 3;
    assert (8 * (25 * q + r - 7) + 5) / 25 == 8 * q + (8 * r - 51) / 25;
  }

  // The algorithm's h is the epact's full moon, in every year.
  lemma MoonAgrees(y: nat)
    ensures PaschalMoonOfMarch(y) == 21 + CorrectedMoonOffset(y)
  {
    var a, b := y % 19, y / 100;
    CenturyCorrections(b);
    var g := (8 * (b + 1) + 5) / 25;
    var s := b - b / 4;
    EpactCongruence(a, s, g);
  }

  lemma EpactCongruence(a: nat, s: int, g: int)
    ensures var h, epact := (19 * a + s - g + 15) % 30, (11 * (a + 1) + 20 + (g - 5) - (s - 12)) % 30;
            h == if epact <= 23 then 23 - epact else 53 - epact
  {
    var p, q := 19 * a + s - g + 15, 11 * (a + 1) + 20 + (g - 5) - (s - 12);
    assert p + q == 30 * a + 53;
    assert p % 30 + q % 30 == 30 * (a - p / 30 - q / 30) + 53;
  }

  lemma FirstSundayAfter(moon: nat, sunday: nat, n: nat)
    requires Weekday(sunday) == SUNDAY && moon < n < sunday <= moon + 7
    ensures Weekday(n) != SUNDAY
  {
  }

  // Easter is the first Sunday strictly after the paschal full moon.
  lemma EasterIsFirstSundayAfterFullMoon(y: nat)
    ensures var moon := DayNumber(Date(y, 3, 1)) + PaschalMoonOfMarch(y) - 1;
            && Weekday(EasterSunday(y)) == SUNDAY
            && moon < EasterSunday(y) <= moon + 7
            && forall n :: moon < n < EasterSunday(y) ==> Weekday(n) != SUNDAY
  {
    var moon := DayNumber(Date(y, 3, 1)) + PaschalMoonOfMarch(y) - 1;
    EasterIsSundayInRange(y);
    forall n | moon < n < EasterSunday(y)
      ensures Weekday(n) != SUNDAY
    {
      FirstSundayAfter(moon, EasterSunday(y), n);
    }
  }

  lemma EasterIsSundayInRange(y: nat)
    ensures var moon := DayNumber(Date(y, 3, 1)) + PaschalMoonOfMarch(y) - 1;
            Weekday(EasterSunday(y)) == SUNDAY && moon < EasterSunday(y) <= moon + 7
  {
    EasterRange(y);
    PackedBounds(y);
    MarchWeekday(y);
    MoonAgrees(y);
    var first, h, l := DayNumber(Date(y, 3, 22)), MoonOffset(y), SundayOffset(y);
    assert first == DayNumber(Date(y, 3, 1)) + 21;
    var late := l == 6 && CorrectedMoonOffset(y) < h;
    assert EasterSunday(y) == first + h + l - (if late then 7 else 0);
    WeekEarlier(first + h + l + SATURDAY, late);
  }

  lemma WeekEarlier(n: int, late: bool)
    requires n % 7 == SUNDAY
    ensures (n - (if late then 7 else 0)) % 7 == SUNDAY
  {
  }

  // The algorithm's answer, from the two offsets of a year without the week correction.
  lemma EasterFromOffsets(y: nat, h: nat, l: nat)
    requires MoonOffset(y) == h <= 27 && SundayOffset(y) == l
    ensures EasterDate(y) == if h + l <= 9 then Date(y, 3, 22 + h + l) else Date(y, 4, h + l - 9)
  {
    PackedBounds(y);
  }

  // Easter of 2026, as the repository's own test has it, and of 2025.
  lemma KnownEasters()
    ensures EasterDate(2026) == Date(2026, 4, 5) && EasterDate(2025) == Date(2025, 4, 20)
  {
    EasterFromOffsets(2026, 12, 2);
    EasterFromOffsets(2025, 23, 6);
  }
}
