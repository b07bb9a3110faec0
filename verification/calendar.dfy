/** The part of System.DateTime the card validator uses: a proleptic Gregorian
    date and time of day to the tick (100 ns), `DateTime.DaysInMonth`, the
    value `default(DateTime)`, and the `<` operator, which compares tick counts
    since 0001-01-01 00:00:00. */
module Calendar {

  const TicksPerSecond: int := 10_000_000
  const TicksPerDay: int := 864_000_000_000

  /** A DateTime by its components; `fraction` counts the ticks within the second. */
  datatype DateTime = DateTime(year: int, month: int, day: int,
                               hour: int, minute: int, second: int, fraction: int)
  {
    /** The values a System.DateTime can hold: years 1 to 9999, a real calendar day. */
    predicate Valid() {
      1 <= year <= 9999 && 1 <= month <= 12 && 1 <= day <= DaysInMonth(year, month) &&
      0 <= hour < 24 && 0 <= minute < 60 && 0 <= second < 60 && 0 <= fraction < TicksPerSecond
    }
  }

  /** `default(DateTime)`: 0001-01-01 00:00:00, tick 0. */
  const Default: DateTime := DateTime(1, 1, 1, 0, 0, 0, 0)

  /** The Gregorian leap-year rule. */
  predicate IsLeapYear(year: int) {
    year % 4 == 0 && (year % 100 != 0 || year % 400 == 0)
  }

  /** Days of the year before the first of month `month + 1` (so entry 0 is 0
      and entry 12 is the length of the year): .NET's DaysToMonth365 and
      DaysToMonth366 tables. */
  function DaysToMonth(year: int, month: int): (days: int)
    requires 0 <= month <= 12
    ensures month == 0 ==> days == 0
    ensures month == 12 ==> days == if IsLeapYear(year) then 366 else 365
  {
    var leap := if IsLeapYear(year) then 1 else 0;
    match month
    case 0 => 0
    case 1 => 31
    case 2 => 59 + leap
    case 3 => 90 + leap
    case 4 => 120 + leap
    case 5 => 151 + leap
    case 6 => 181 + leap
    case 7 => 212 + leap
    case 8 => 243 + leap
    case 9 => 273 + leap
    case 10 => 304 + leap
    case 11 => 334 + leap
    case _ => 365 + leap
  }

  /** `DateTime.DaysInMonth`: the difference of two consecutive table entries. */
  function DaysInMonth(year: int, month: int): (n: int)
    requires 1 <= month <= 12
    ensures 28 <= n <= 31
    ensures month == 2 ==> (n == 29 <==> IsLeapYear(year)) && (n == 28 <==> !IsLeapYear(year))
    ensures month == 4 || month == 6 || month == 9 || month == 11 ==> n == 30
    ensures month != 2 && month != 4 && month != 6 && month != 9 && month != 11 ==> n == 31
  {
    DaysToMonth(year, month) - DaysToMonth(year, month - 1)
  }

  /** Days from 0001-01-01 to the first of January of `year`. */
  function DaysBeforeYear(year: int): int {
    var n := year - 1;
    n * 365 + n / 4 - n / 100 + n / 400
  }

  /** Days from 0001-01-01 to the date of `d`. */
  function DayNumber(d: DateTime): int
    requires 1 <= d.month <= 12
  {
    DaysBeforeYear(d.year) + DaysToMonth(d.year, d.month - 1) + d.day - 1
  }

  /** Ticks since midnight. */
  function TimeOfDay(d: DateTime): int {
    ((d.hour * 60 + d.minute) * 60 + d.second) * 10_000_000 + d.fraction
  }

  /** `DateTime.Ticks`. */
  function Ticks(d: DateTime): int
    requires 1 <= d.month <= 12
  {
    DayNumber(d) * 864_000_000_000 + TimeOfDay(d)
  }

  /** The operator `a < b` of System.DateTime: fewer ticks, which for valid
      values is the calendar order. */
  predicate Before(a: DateTime, b: DateTime): (r: bool)
    requires 1 <= a.month <= 12 && 1 <= b.month <= 12
    ensures a.Valid() && b.Valid() ==> (r <==> Precedes(a, b))
  {
    if a.Valid() && b.Valid() then TicksOrder(a, b); Ticks(a) < Ticks(b)
    else Ticks(a) < Ticks(b)
  }

  /** Calendar order read off the components, most significant first. */
  predicate Precedes(a: DateTime, b: DateTime) {
    if a.year != b.year then a.year < b.year
    else if a.month != b.month then a.month < b.month
    else if a.day != b.day then a.day < b.day
    else if a.hour != b.hour then a.hour < b.hour
    else if a.minute != b.minute then a.minute < b.minute
    else if a.second != b.second then a.second < b.second
    else a.fraction < b.fraction
  }

  lemma DivStep(n: int)
    requires n >= 0
    ensures (n + 1) / 4 == n / 4 + (if (n + 1) % 4 == 0 then 1 else 0)
    ensures (n + 1) / 100 == n / 100 + (if (n + 1) % 100 == 0 then 1 else 0)
    ensures (n + 1) / 400 == n / 400 + (if (n + 1) % 400 == 0 then 1 else 0)
  {
  }

  lemma MultipleOf400(year: int)
    requires year % 400 == 0
    ensures year % 100 == 0
  {
    assert year == 100 * (4 * (year / 400));
  }

  lemma MultipleOf100(year: int)
    requires year % 100 == 0
    ensures year % 4 == 0
  {
    assert year == 4 * (25 * (year / 100));
  }

  lemma LeapCount(year: int)
    ensures (if year % 4 == 0 then 1 else 0) - (if year % 100 == 0 then 1 else 0) +
            (if year % 400 == 0 then 1 else 0) == (if IsLeapYear(year) then 1 else 0)
  {
    if year % 400 == 0 {
      MultipleOf400(year);
    }
    if year % 100 == 0 {
      MultipleOf100(year);
    }
  }

  /** The year-length step of the closed formula in DaysBeforeYear. */
  lemma YearLength(year: int)
    requires year >= 1
    ensures DaysBeforeYear(year + 1) == DaysBeforeYear(year) + DaysToMonth(year, 12)
  {
    DivStep(year - 1);
    LeapCount(year);
    assert DaysToMonth(year, 12) == 365 + (if IsLeapYear(year) then 1 else 0);
  }

  lemma {:induction false} YearsAscend(y1: int, y2: int)
    requires 1 <= y1 < y2
    ensures DaysBeforeYear(y1) + DaysToMonth(y1, 12) <= DaysBeforeYear(y2)
    decreases y2 - y1
  {
    YearLength(y1);
    if y1 + 1 < y2 {
      YearsAscend(y1 + 1, y2);
    }
  }

  lemma {:induction false} MonthsAscend(year: int, m1: int, m2: int)
    requires 0 <= m1 <= m2 <= 12
    ensures DaysToMonth(year, m1) <= DaysToMonth(year, m2)
    decreases m2 - m1
  {
    if m1 < m2 {
      assert DaysToMonth(year, m1) < DaysToMonth(year, m1 + 1);
      MonthsAscend(year, m1 + 1, m2);
    }
  }

  lemma DayNumberWithinYear(d: DateTime)
    requires d.Valid()
    ensures DaysBeforeYear(d.year) <= DayNumber(d) < DaysBeforeYear(d.year) + DaysToMonth(d.year, 12)
  {
    MonthsAscend(d.year, d.month, 12);
  }

  lemma DayNumberOrder(a: DateTime, b: DateTime)
    requires a.Valid() && b.Valid()
    ensures (a.year, a.month, a.day) == (b.year, b.month, b.day) ==> DayNumber(a) == DayNumber(b)
    ensures (a.year < b.year || (a.year == b.year && (a.month < b.month ||
             (a.month == b.month && a.day < b.day)))) ==> DayNumber(a) < DayNumber(b)
  {
    if a.year < b.year {
      DayNumberWithinYear(a);
      DayNumberWithinYear(b);
      YearsAscend(a.year, b.year);
    } else if a.year == b.year && a.month < b.month {
      MonthsAscend(a.year, a.month, b.month - 1);
    }
  }

  lemma TimeOfDayOrder(a: DateTime, b: DateTime)
    requires a.Valid() && b.Valid()
    ensures 0 <= TimeOfDay(a) < 864_000_000_000
    ensures (a.hour, a.minute, a.second, a.fraction) == (b.hour, b.minute, b.second, b.fraction)
            ==> TimeOfDay(a) == TimeOfDay(b)
    ensures (a.hour < b.hour || (a.hour == b.hour && (a.minute < b.minute ||
             (a.minute == b.minute && (a.second < b.second ||
             (a.second == b.second && a.fraction < b.fraction))))))
            ==> TimeOfDay(a) < TimeOfDay(b)
  {
    var ma, mb := a.hour * 60 + a.minute, b.hour * 60 + b.minute;
    var sa, sb := ma * 60 + a.second, mb * 60 + b.second;
    assert a.hour < b.hour ==> ma < mb;
    assert ma < mb ==> sa < sb;
    assert sa < sb ==> TimeOfDay(a) < TimeOfDay(b);
  }

  /** The tick order of valid DateTimes is the calendar order of their
      components, and equal tick counts mean equal values. */
  lemma {:induction false} TicksOrder(a: DateTime, b: DateTime)
    requires a.Valid() && b.Valid()
    ensures Ticks(a) < Ticks(b) <==> Precedes(a, b)
    ensures Ticks(a) == Ticks(b) <==> a == b
  {
    DayNumberOrder(a, b);
    DayNumberOrder(b, a);
    TimeOfDayOrder(a, b);
    TimeOfDayOrder(b, a);
    var da, db := DayNumber(a), DayNumber(b);
    var ta, tb := TimeOfDay(a), TimeOfDay(b);
    assert da < db ==> Ticks(a) < Ticks(b) by {
      if da < db {
        assert da * 864_000_000_000 + 864_000_000_000 <= db * 864_000_000_000;
      }
    }
    assert db < da ==> Ticks(b) < Ticks(a) by {
      if db < da {
        assert db * 864_000_000_000 + 864_000_000_000 <= da * 864_000_000_000;
      }
    }
  }
}
