/** The proleptic Gregorian calendar that Go's `time` package uses, in UTC.
  * Day 0 is Monday, 1 January of year 1; years before it are zero and negative. */
module Calendar {
  predicate LeapYear(year: int) { year % 4 == 0 && (year % 100 != 0 || year % 400 == 0) }

  function YearLength(year: int): int { if LeapYear(year) then 366 else 365 }

  function FirstDay(year: int): int {
    var past := year - 1;
    365 * past + past / 4 - past / 100 + past / 400
  }

  function MonthLength(year: int, month: int): int {
    if month == 2 then (if LeapYear(year) then 29 else 28)
    else if month == 4 || month == 6 || month == 9 || month == 11 then 30 else 31
  }

  function DaysBefore(year: int, month: int): int
    requires 1 <= month <= 13
    decreases month
  {
    if month == 1 then 0 else DaysBefore(year, month - 1) + MonthLength(year, month - 1)
  }

  datatype Date = Date(year: int, month: int, day: int)

  predicate Real(d: Date) { 1 <= d.month <= 12 && 1 <= d.day <= MonthLength(d.year, d.month) }

  function DayNumber(d: Date): int
    requires Real(d)
  {
    FirstDay(d.year) + DaysBefore(d.year, d.month) + d.day - 1
  }

  /** Sunday is 0, as in Go. */
  function Weekday(day: int): int { (day + 1) % 7 }

  function YearFrom(day: int, year: int): (found: int)
    requires FirstDay(year) <= day
    ensures FirstDay(found) <= day < FirstDay(found + 1)
    decreases day - FirstDay(year)
  {
    NextYear(year);
    if day < FirstDay(year + 1) then year else YearFrom(day, year + 1)
  }

  function MonthFrom(year: int, offset: int, month: int): (found: int)
    requires 1 <= month <= 12 && DaysBefore(year, month) <= offset < YearLength(year)
    ensures 1 <= found <= 12 && DaysBefore(year, found) <= offset < DaysBefore(year, found) + MonthLength(year, found)
    decreases 12 - month
  {
    YearIsItsMonths(year);
    if offset < DaysBefore(year, month) + MonthLength(year, month) then month else MonthFrom(year, offset, month + 1)
  }

  function DateOf(day: int): (d: Date)
    ensures Real(d) && DayNumber(d) == day
  {
    FourCenturies(day / 146097);
    var year := YearFrom(day, 400 * (day / 146097) + 1);
    NextYear(year);
    var offset := day - FirstDay(year);
    var month := MonthFrom(year, offset, 1);
    Date(year, month, offset - DaysBefore(year, month) + 1)
  }

  lemma YearIsItsMonths(year: int)
    ensures DaysBefore(year, 13) == YearLength(year)
  {
    assert DaysBefore(year, 4) == 62 + MonthLength(year, 2);
    assert DaysBefore(year, 7) == DaysBefore(year, 4) + 91;
    assert DaysBefore(year, 10) == DaysBefore(year, 7) + 92;
    assert DaysBefore(year, 13) == DaysBefore(year, 10) + 92;
  }

  lemma NextYear(year: int)
    ensures FirstDay(year + 1) == FirstDay(year) + YearLength(year)
  {
    assert year / 4 - (year - 1) / 4 == if year % 4 == 0 then 1 else 0;
    assert year / 100 - (year - 1) / 100 == if year % 100 == 0 then 1 else 0;
    assert year / 400 - (year - 1) / 400 == if year % 400 == 0 then 1 else 0;
  }

  lemma FourCenturies(n: int)
    ensures FirstDay(400 * n + 1) == 146097 * n
  {
    assert 400 * n / 4 == 100 * n && 400 * n / 100 == 4 * n && 400 * n / 400 == n;
  }

  lemma {:induction false} LaterYear(a: int, b: int)
    requires a <= b
    ensures FirstDay(b) - FirstDay(a) >= 365 * (b - a)
    decreases b - a
  {
    if a < b {
      LaterYear(a, b - 1);
      NextYear(b - 1);
    }
  }

  lemma {:induction false} LaterMonth(year: int, a: int, b: int)
    requires 1 <= a < b <= 13
    ensures DaysBefore(year, a) + MonthLength(year, a) <= DaysBefore(year, b)
    decreases b - a
  {
    if a + 1 < b { LaterMonth(year, a, b - 1); }
  }

  lemma WithinYear(d: Date)
    requires Real(d)
    ensures FirstDay(d.year) <= DayNumber(d) < FirstDay(d.year + 1)
    ensures DaysBefore(d.year, d.month) >= 0
  {
    LaterMonth(d.year, d.month, 13);
    YearIsItsMonths(d.year);
    NextYear(d.year);
    if d.month > 1 { LaterMonth(d.year, 1, d.month); }
  }

  predicate Earlier(a: Date, b: Date) {
    a.year < b.year || (a.year == b.year && (a.month < b.month || (a.month == b.month && a.day < b.day)))
  }

  lemma EarlierComesFirst(a: Date, b: Date)
    requires Real(a) && Real(b) && Earlier(a, b)
    ensures DayNumber(a) < DayNumber(b)
  {
    if a.year < b.year {
      WithinYear(a);
      WithinYear(b);
      LaterYear(a.year + 1, b.year);
    } else if a.month < b.month {
      LaterMonth(a.year, a.month, b.month);
    }
  }

  /** Dates and day numbers correspond one to one, and in order. */
  lemma DatesAreOrdered(a: Date, b: Date)
    requires Real(a) && Real(b)
    ensures DayNumber(a) < DayNumber(b) <==> Earlier(a, b)
    ensures DayNumber(a) == DayNumber(b) <==> a == b
  {
    if Earlier(a, b) {
      EarlierComesFirst(a, b);
    } else if Earlier(b, a) {
      EarlierComesFirst(b, a);
    }
  }

  lemma DateOfDayNumber(d: Date)
    requires Real(d)
    ensures DateOf(DayNumber(d)) == d
  {
    DatesAreOrdered(DateOf(DayNumber(d)), d);
  }

  /** 1 January 1970 was a Thursday, and the days of the week follow one another. */
  lemma WeekdayIsKnown(day: int)
    ensures DayNumber(Date(1970, 1, 1)) == 719162 && Weekday(719162) == 4
    ensures 0 <= Weekday(day) <= 6 && Weekday(day + 1) == if Weekday(day) == 6 then 0 else Weekday(day) + 1
  {
  }

  /** Thirty days have April, June, September and November; a year has twelve months. */
  lemma MonthsAreKnown(year: int, month: int)
    requires 1 <= month <= 12
    ensures MonthLength(year, month) == 30 <==> month in {4, 6, 9, 11}
    ensures MonthLength(year, month) == 31 <==> month in {1, 3, 5, 7, 8, 10, 12}
    ensures month == 2 ==> MonthLength(year, month) == if LeapYear(year) then 29 else 28
    ensures DaysBefore(year, 13) == if LeapYear(year) then 366 else 365
  {
    YearIsItsMonths(year);
  }
}
