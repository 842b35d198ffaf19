/** Proleptic Gregorian calendar dates in UTC, as the `YYYY-MM-DD` prefix of an
    ISO-8601 timestamp denotes them. The order `Before` is the lexicographic order
    on (year, month, day), which is the order of the `YYYY-MM-DD` strings for
    four-digit years. `DayNumber` counts days since 1970-01-01 and is used for
    weekdays and for stepping back a number of days. */
module Dates {

  datatype Date = Date(year: int, month: int, day: int)

  predicate IsLeapYear(y: int) {
    y % 4 == 0 && (y % 100 != 0 || y % 400 == 0)
  }

  function DaysInMonth(year: int, month: int): (n: int)
    ensures 28 <= n <= 31
  {
    if month == 2 then (if IsLeapYear(year) then 29 else 28)
    else if month == 4 || month == 6 || month == 9 || month == 11 then 30
    else 31
  }

  /** A real calendar day. */
  predicate Valid(d: Date) {
    1 <= d.month <= 12 && 1 <= d.day <= DaysInMonth(d.year, d.month)
  }

  /** The order of the `YYYY-MM-DD` strings. */
  predicate Before(a: Date, b: Date) {
    a.year < b.year
    || (a.year == b.year && (a.month < b.month || (a.month == b.month && a.day < b.day)))
  }

  predicate NotAfter(a: Date, b: Date) {
    a == b || Before(a, b)
  }

  /** `Before` is a strict total order. */
  lemma BeforeIsStrictTotalOrder(a: Date, b: Date, c: Date)
    ensures !Before(a, a)
    ensures Before(a, b) && Before(b, c) ==> Before(a, c)
    ensures a != b ==> Before(a, b) || Before(b, a)
    ensures Before(a, b) ==> !Before(b, a)
  {
  }

  // ---- Day numbers (days since 1970-01-01), after H. Hinnant's days_from_civil.
  // The year is counted from March, so that February 29 is the last day of it.

  function ShiftedYear(d: Date): int {
    if d.month <= 2 then d.year - 1 else d.year
  }

  /** Day of the March-based year, 0 for March 1. */
  function DayOfShiftedYear(month: int, day: int): int {
    (153 * (if month > 2 then month - 3 else month + 9) + 2) / 5 + day - 1
  }

  /** Days from 0000-03-01 to March 1 of March-based year `y`; the same value as
      Hinnant's era/year-of-era form, written with floor divisions. */
  function YearBase(y: int): int {
    365 * y + y / 4 - y / 100 + y / 400
  }

  function DayNumber(d: Date): int {
    YearBase(ShiftedYear(d)) + DayOfShiftedYear(d.month, d.day) - 719468
  }

  lemma DivStep4(y: int)
    ensures (y + 1) / 4 - y / 4 == if (y + 1) % 4 == 0 then 1 else 0
  {
  }

  lemma DivStep100(y: int)
    ensures (y + 1) / 100 - y / 100 == if (y + 1) % 100 == 0 then 1 else 0
  {
  }

  lemma DivStep400(y: int)
    ensures (y + 1) / 400 - y / 400 == if (y + 1) % 400 == 0 then 1 else 0
  {
  }

  /** A March-based year has 366 days exactly when the February that ends it
      falls in a leap year. */
  lemma YearBaseStep(y: int)
    ensures YearBase(y + 1) - YearBase(y) == if IsLeapYear(y + 1) then 366 else 365
  {
    DivStep4(y);
    DivStep100(y);
    DivStep400(y);
    var z := y + 1;
    assert z % 400 == 0 ==> z % 100 == 0;
    assert z % 100 == 0 ==> z % 4 == 0;
  }

  /** The JavaScript `getDay` of a date at UTC midnight: 0 is Sunday. */
  function Weekday(d: Date): (w: int)
    ensures 0 <= w < 7
  {
    (DayNumber(d) + 4) % 7
  }

  /** Day 0 is 1970-01-01, which was a Thursday (`getDay` 4); this anchors
      `Weekday` to JavaScript's numbering. */
  lemma EpochThursday()
    ensures DayNumber(Date(1970, 1, 1)) == 0
    ensures Weekday(Date(1970, 1, 1)) == 4
  {
    assert ShiftedYear(Date(1970, 1, 1)) == 1969;
    assert 1969 / 4 == 492 && 1969 / 100 == 19 && 1969 / 400 == 4;
    assert YearBase(1969) == 719162;
    assert DayOfShiftedYear(1, 1) == 306;
  }

  /** 2024-01-07 was a Sunday, and 2024-01-06 a Saturday. */
  lemma KnownSunday()
    ensures Weekday(Date(2024, 1, 7)) == 0
    ensures Weekday(Date(2024, 1, 6)) == 6
  {
    assert ShiftedYear(Date(2024, 1, 7)) == 2023;
    assert 2023 / 4 == 505 && 2023 / 100 == 20 && 2023 / 400 == 5;
    assert YearBase(2023) == 738885;
    assert DayOfShiftedYear(1, 7) == 312 && DayOfShiftedYear(1, 6) == 311;
    assert DayNumber(Date(2024, 1, 7)) == 19729;
  }

  /** The calendar day before `d`. */
  function PrevDay(d: Date): Date {
    if d.day > 1 then Date(d.year, d.month, d.day - 1)
    else if d.month > 1 then Date(d.year, d.month - 1, DaysInMonth(d.year, d.month - 1))
    else Date(d.year - 1, 12, 31)
  }

  lemma PrevDayIsOneDayEarlier(d: Date)
    requires Valid(d)
    ensures Valid(PrevDay(d))
    ensures DayNumber(PrevDay(d)) == DayNumber(d) - 1
    ensures Before(PrevDay(d), d)
  {
    if d.day > 1 {
    } else if d.month == 3 {
      YearBaseStep(d.year - 1);
    } else if d.month > 1 {
      MonthBoundary(d.year, d.month);
    } else {
      assert DayOfShiftedYear(1, 1) == 306 && DayOfShiftedYear(12, 31) == 305;
    }
  }

  /** The first of a month other than March follows the last day of the month
      before within the same March-based year. */
  lemma MonthBoundary(y: int, m: int)
    requires 2 <= m <= 12 && m != 3
    ensures DayOfShiftedYear(m, 1) == DayOfShiftedYear(m - 1, DaysInMonth(y, m - 1)) + 1
  {
    if m == 2 {
      assert DayOfShiftedYear(2, 1) == 337 && DayOfShiftedYear(1, 31) == 336;
    } else if m == 4 {
      assert DayOfShiftedYear(4, 1) == 31 && DayOfShiftedYear(3, 31) == 30;
    } else if m == 5 {
      assert DayOfShiftedYear(5, 1) == 61 && DayOfShiftedYear(4, 30) == 60;
    } else if m == 6 {
      assert DayOfShiftedYear(6, 1) == 92 && DayOfShiftedYear(5, 31) == 91;
    } else if m == 7 {
      assert DayOfShiftedYear(7, 1) == 122 && DayOfShiftedYear(6, 30) == 121;
    } else if m == 8 {
      assert DayOfShiftedYear(8, 1) == 153 && DayOfShiftedYear(7, 31) == 152;
    } else if m == 9 {
      assert DayOfShiftedYear(9, 1) == 184 && DayOfShiftedYear(8, 31) == 183;
    } else if m == 10 {
      assert DayOfShiftedYear(10, 1) == 214 && DayOfShiftedYear(9, 30) == 213;
    } else if m == 11 {
      assert DayOfShiftedYear(11, 1) == 245 && DayOfShiftedYear(10, 31) == 244;
    } else {
      assert DayOfShiftedYear(12, 1) == 275 && DayOfShiftedYear(11, 30) == 274;
    }
  }

  /** `k` calendar days before `d`; what `setDate(getDate() - k)` does in UTC. */
  function MinusDays(d: Date, k: nat): Date
    decreases k
  {
    if k == 0 then d else MinusDays(PrevDay(d), k - 1)
  }

  lemma {:induction false} MinusDaysIsKDaysEarlier(d: Date, k: nat)
    requires Valid(d)
    ensures Valid(MinusDays(d, k))
    ensures DayNumber(MinusDays(d, k)) == DayNumber(d) - k
    ensures NotAfter(MinusDays(d, k), d)
    decreases k
  {
    if k > 0 {
      PrevDayIsOneDayEarlier(d);
      MinusDaysIsKDaysEarlier(PrevDay(d), k - 1);
      BeforeIsStrictTotalOrder(MinusDays(d, k), PrevDay(d), d);
    }
  }

  /** The weekly bucket key: the date minus its weekday, i.e. the Sunday that
      starts the (Sunday-to-Saturday) week holding `d`. */
  function WeekStart(d: Date): (r: Date)
    ensures Valid(d) ==> Valid(r) && Weekday(r) == 0
    ensures Valid(d) ==> 0 <= DayNumber(d) - DayNumber(r) <= 6 && NotAfter(r, d)
  {
    if Valid(d) then
      SundayOnOrBefore(d);
      MinusDays(d, Weekday(d))
    else
      MinusDays(d, Weekday(d))
  }

  lemma SundayOnOrBefore(d: Date)
    requires Valid(d)
    ensures Valid(MinusDays(d, Weekday(d))) && Weekday(MinusDays(d, Weekday(d))) == 0
    ensures DayNumber(MinusDays(d, Weekday(d))) == DayNumber(d) - Weekday(d)
    ensures NotAfter(MinusDays(d, Weekday(d)), d)
  {
    MinusDaysIsKDaysEarlier(d, Weekday(d));
    SundayIsFirstWeekday(d);
  }

  lemma SundayIsFirstWeekday(d: Date)
    requires Valid(d)
    ensures Weekday(MinusDays(d, Weekday(d))) == 0
  {
    MinusDaysIsKDaysEarlier(d, Weekday(d));
    BackToSunday(d, MinusDays(d, Weekday(d)));
  }

  /** Going back from a day by its weekday lands on a Sunday. */
  lemma BackToSunday(a: Date, b: Date)
    requires DayNumber(b) == DayNumber(a) - Weekday(a)
    ensures Weekday(b) == 0
  {
    var n := DayNumber(a);
    WeekdayOfNumber(a, n);
    WeekdayOfNumber(b, n - Weekday(a));
    SubtractWeekday(n, Weekday(a));
  }

  lemma WeekdayOfNumber(d: Date, n: int)
    requires DayNumber(d) == n
    ensures Weekday(d) == (n + 4) % 7
  {
  }

  lemma SubtractWeekday(n: int, w: int)
    requires w == (n + 4) % 7
    ensures (n - w + 4) % 7 == 0
  {
    SubtractRemainder(n + 4);
  }

  lemma SubtractRemainder(m: int)
    ensures (m - m % 7) % 7 == 0
  {
    assert m - m % 7 == 7 * (m / 7);
  }

  /** The monthly bucket key: the first day of the month of `d`. */
  function MonthStart(d: Date): (r: Date)
    ensures Valid(d) ==> Valid(r) && NotAfter(r, d)
    ensures r.day == 1 && r.year == d.year && r.month == d.month
  {
    Date(d.year, d.month, 1)
  }

  /** Two dates share a monthly bucket exactly when they lie in the same
      calendar month. */
  lemma MonthStartGroupsByMonth(a: Date, b: Date)
    ensures MonthStart(a) == MonthStart(b) <==> a.year == b.year && a.month == b.month
  {
  }

  // ---- The `YYYY-MM-DD` order is the chronological order.

  lemma DayOfShiftedYearBounds(d: Date)
    requires Valid(d)
    ensures 0 <= DayOfShiftedYear(d.month, d.day)
    ensures DayOfShiftedYear(d.month, d.day) < YearBase(ShiftedYear(d) + 1) - YearBase(ShiftedYear(d))
  {
    YearBaseStep(ShiftedYear(d));
  }

  lemma {:induction false} YearBaseMonotone(y1: int, y2: int)
    requires y1 <= y2
    ensures YearBase(y1) <= YearBase(y2)
    decreases y2 - y1
  {
    if y1 < y2 {
      YearBaseStep(y1);
      YearBaseMonotone(y1 + 1, y2);
    }
  }

  /** Within one March-based year, a valid date earlier in the
      lexicographic order has a smaller day-of-year. */
  lemma DayOfShiftedYearMonotone(a: Date, b: Date)
    requires Valid(a) && Valid(b) && Before(a, b) && ShiftedYear(a) == ShiftedYear(b)
    ensures DayOfShiftedYear(a.month, a.day) < DayOfShiftedYear(b.month, b.day)
  {
  }

  lemma DayNumberMonotone(a: Date, b: Date)
    requires Valid(a) && Valid(b) && Before(a, b)
    ensures DayNumber(a) < DayNumber(b)
  {
    var ya, yb := ShiftedYear(a), ShiftedYear(b);
    if ya < yb {
      DayOfShiftedYearBounds(a);
      DayOfShiftedYearBounds(b);
      YearBaseMonotone(ya + 1, yb);
    } else {
      DayOfShiftedYearMonotone(a, b);
    }
  }

  /** Sorting `YYYY-MM-DD` keys as strings sorts the days chronologically:
      on real calendar days, `Before` holds exactly when the first day comes
      earlier in time. In particular two distinct days never share a day
      number. */
  lemma BeforeIsChronological(a: Date, b: Date)
    requires Valid(a) && Valid(b)
    ensures Before(a, b) <==> DayNumber(a) < DayNumber(b)
    ensures a == b <==> DayNumber(a) == DayNumber(b)
  {
    BeforeIsStrictTotalOrder(a, b, a);
    if Before(a, b) {
      DayNumberMonotone(a, b);
    } else if Before(b, a) {
      DayNumberMonotone(b, a);
    }
  }

  /** Two days share a weekly bucket exactly when the Sundays on or before
      them are the same day. */
  lemma WeekStartGroupsByWeek(a: Date, b: Date)
    requires Valid(a) && Valid(b)
    ensures WeekStart(a) == WeekStart(b) <==> DayNumber(a) - Weekday(a) == DayNumber(b) - Weekday(b)
  {
    var ka, kb := WeekStart(a), WeekStart(b);
    MinusDaysIsKDaysEarlier(a, Weekday(a));
    MinusDaysIsKDaysEarlier(b, Weekday(b));
    BeforeIsChronological(ka, kb);
  }

  predicate StrictlyAscendingDates(s: seq<Date>) {
    forall i, j :: 0 <= i < j < |s| ==> Before(s[i], s[j])
  }

  /** A later day never has an earlier weekly bucket. */
  lemma WeekStartMonotone(a: Date, b: Date)
    requires Valid(a) && Valid(b) && NotAfter(a, b)
    ensures NotAfter(WeekStart(a), WeekStart(b))
  {
    var ka, kb := WeekStart(a), WeekStart(b);
    WeekStartDayNumber(a);
    WeekStartDayNumber(b);
    BeforeIsChronological(a, b);
    RoundDownMonotone(DayNumber(a) + 4, DayNumber(b) + 4);
    BeforeIsChronological(ka, kb);
  }

  lemma WeekStartDayNumber(d: Date)
    requires Valid(d)
    ensures Valid(WeekStart(d))
    ensures DayNumber(WeekStart(d)) == (DayNumber(d) + 4) - (DayNumber(d) + 4) % 7 - 4
  {
    var n, k := DayNumber(d), MinusDays(d, Weekday(d));
    assert WeekStart(d) == k;
    SundayOnOrBefore(d);
    assert Valid(k) && DayNumber(k) == n - Weekday(d);
    WeekdayOfNumber(d, n);
    assert Weekday(d) == (n + 4) % 7;
  }

  lemma RoundDownMonotone(x: int, y: int)
    requires x <= y
    ensures x - x % 7 <= y - y % 7
  {
    assert x - x % 7 == 7 * (x / 7) && y - y % 7 == 7 * (y / 7);
    DivMonotone(x, y);
  }

  lemma DivMonotone(x: int, y: int)
    requires x <= y
    ensures x / 7 <= y / 7
  {
  }

  /** A later day never has an earlier monthly bucket. */
  lemma MonthStartMonotone(a: Date, b: Date)
    requires NotAfter(a, b)
    ensures NotAfter(MonthStart(a), MonthStart(b))
  {
  }
}
