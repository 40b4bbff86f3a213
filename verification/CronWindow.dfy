/** When the five-year search window is long enough: always, except across a skipped leap year. */
module CronWindow {
  import opened Options
  import opened Calendar
  import opened CronSearch

  ghost predicate Fails(spec: Spec, first: int)
    requires spec.Cron?
  {
    forall t | first <= t < first + WINDOW :: !Selected(spec, t)
  }

  /** Some selected month and day of the month meet in every year. */
  ghost predicate YearlyDate(spec: Spec)
    requires spec.Cron?
  {
    exists m, d | m in spec.month.values && d in spec.day.values :: Real(Date(1, m, d))
  }

  predicate LeapDayDate(spec: Spec)
    requires spec.Cron?
  {
    2 in spec.month.values && 29 in spec.day.values
  }

  function LeapDay(year: int): int { FirstDay(year) + 59 }

  predicate SkippedCentury(year: int) { year % 100 == 0 && year % 400 != 0 }

  /** The window starts after 29 February four years before a skipped leap year, and ends before
    * 29 February four years after it. */
  ghost predicate Spans(spec: Spec, first: int, century: int)
    requires spec.Cron?
  {
    forall k | 0 <= k < 1440 && TimeSelected(spec, k) ::
      LeapDay(century - 4) * 1440 + k < first && first + WINDOW <= LeapDay(century + 4) * 1440 + k
  }

  ghost predicate InSkippedGap(spec: Spec, first: int)
    requires spec.Cron?
  {
    exists century | SkippedCentury(century) :: Spans(spec, first, century)
  }

  /** The weekday is free, no selected date comes every year, and 29 February is not selected or the
    * window lies between the leap days around a skipped one. */
  ghost predicate OutOfReach(spec: Spec, first: int)
    requires spec.Cron?
  {
    spec.weekday.any && !YearlyDate(spec) && (LeapDayDate(spec) ==> InSkippedGap(spec, first))
  }

  lemma SomeTime(spec: Spec) returns (k: int)
    requires Usable(spec)
    ensures 0 <= k < 1440 && TimeSelected(spec, k)
  {
    var h :| 0 <= h <= 23 && h in spec.hour.values;
    var m :| 0 <= m <= 59 && m in spec.minute.values;
    k := 60 * h + m;
  }

  lemma SelectedDayIsFound(spec: Spec, first: int, day: int)
    requires Usable(spec) && first / 1440 < day <= first / 1440 + 1828
    requires DateOf(day).month in spec.month.values && DaySelected(spec, day)
    ensures !Fails(spec, first)
  {
    var k := SomeTime(spec);
    var t := 1440 * day + k;
    assert t / 1440 == day && t % 1440 == k;
    assert Selected(spec, t);
  }

  lemma NextYearIsNear(day: int, d: Date)
    requires Real(d) && d.year == DateOf(day).year + 1
    ensures day < DayNumber(d) <= day + 731
  {
    WithinYear(d);
    WithinYear(DateOf(day));
    NextYear(d.year - 1);
    NextYear(d.year);
  }

  lemma WeekdayAhead(day: int, w: int) returns (j: int)
    requires 0 <= w <= 6
    ensures 0 <= j <= 6 && Weekday(day + j) == w
  {
    var today := Weekday(day);
    j := if w >= today then w - today else w - today + 7;
  }

  lemma WeekdayIsFound(spec: Spec, first: int)
    requires Usable(spec) && !spec.weekday.any
    ensures !Fails(spec, first)
  {
    hide Fails, FirstDay, DateOf;
    var m :| 1 <= m <= 12 && m in spec.month.values;
    var w :| 0 <= w <= 6 && w in spec.weekday.values;
    var start := Date(DateOf(first / 1440).year + 1, m, 1);
    var j := WeekdayAhead(DayNumber(start), w);
    var d := start.(day := 1 + j);
    assert DayNumber(d) == DayNumber(start) + j;
    NextYearIsNear(first / 1440, d);
    DateOfDayNumber(d);
    SelectedDayIsFound(spec, first, DayNumber(d));
  }

  lemma YearlyDateIsFound(spec: Spec, first: int)
    requires Usable(spec) && spec.weekday.any && YearlyDate(spec)
    ensures !Fails(spec, first)
  {
    var m, d :| m in spec.month.values && d in spec.day.values && Real(Date(1, m, d));
    var date := Date(DateOf(first / 1440).year + 1, m, d);
    NextYearIsNear(first / 1440, date);
    DateOfDayNumber(date);
    SelectedDayIsFound(spec, first, DayNumber(date));
  }

  lemma OnlyLeapDays(spec: Spec, t: int)
    requires spec.Cron? && spec.weekday.any && !YearlyDate(spec)
    ensures Selected(spec, t) ==> LeapDayDate(spec)
    ensures Selected(spec, t) ==> LeapYear(DateOf(t / 1440).year) && t / 1440 == LeapDay(DateOf(t / 1440).year)
  {
    var date := DateOf(t / 1440);
    if Selected(spec, t) {
      assert !Real(Date(1, date.month, date.day));
      assert date.month == 2 && date.day == 29;
      assert DaysBefore(date.year, 2) == 31;
    }
  }

  lemma LeapDaysAreSelected(spec: Spec, year: int, k: int)
    requires Usable(spec) && spec.weekday.any && LeapDayDate(spec) && LeapYear(year)
    requires 0 <= k < 1440 && TimeSelected(spec, k)
    ensures Selected(spec, 1440 * LeapDay(year) + k)
  {
    var date := Date(year, 2, 29);
    assert DaysBefore(year, 2) == 31;
    DateOfDayNumber(date);
    var t := 1440 * LeapDay(year) + k;
    assert t / 1440 == LeapDay(year) && t % 1440 == k;
  }

  lemma LeapDaysInOrder(a: int, b: int)
    ensures a <= b <==> LeapDay(a) <= LeapDay(b)
  {
    if a <= b { LaterYear(a, b); } else { LaterYear(b, a); }
  }

  lemma BetweenLeapYears(century: int, year: int)
    requires SkippedCentury(century) && century - 4 < year < century + 4
    ensures !LeapYear(year)
  {
  }

  lemma GapFails(spec: Spec, first: int, century: int)
    requires Usable(spec) && spec.weekday.any && !YearlyDate(spec)
    requires SkippedCentury(century) && Spans(spec, first, century)
    ensures Fails(spec, first)
  {
    hide FirstDay, DateOf, DaySelected;
    forall t | first <= t < first + WINDOW ensures !Selected(spec, t) {
      if Selected(spec, t) {
        OnlyLeapDays(spec, t);
        var year, k := DateOf(t / 1440).year, t % 1440;
        assert LeapDay(century - 4) * 1440 + k < first && first + WINDOW <= LeapDay(century + 4) * 1440 + k;
        LeapDaysInOrder(year, century - 4);
        LeapDaysInOrder(century + 4, year);
        assert century - 4 < year < century + 4;
        BetweenLeapYears(century, year);
      }
    }
  }

  function LeapAfter(year: int): int { if LeapYear(year + 4) then year + 4 else year + 8 }

  function LeapBefore(year: int): (leap: int)
    ensures LeapYear(leap) && leap < year <= LeapAfter(leap)
  {
    var multiple := (year - 1) / 4 * 4;
    if LeapYear(multiple) then multiple else multiple - 4
  }

  lemma LeapAfterIsLeap(year: int)
    requires LeapYear(year)
    ensures LeapYear(LeapAfter(year))
    ensures LeapAfter(year) == year + 4 || SkippedCentury(year + 4)
  {
  }

  /** The leap days on either side of the start of the window. */
  lemma Around(spec: Spec, first: int) returns (before: int)
    requires Usable(spec)
    ensures LeapYear(before)
    ensures forall k | 0 <= k < 1440 && TimeSelected(spec, k) :: 1440 * LeapDay(before) + k < first
    ensures exists k | 0 <= k < 1440 && TimeSelected(spec, k) :: first <= 1440 * LeapDay(LeapAfter(before)) + k
  {
    var date := DateOf(first / 1440);
    WithinYear(date);
    before := LeapBefore(date.year);
    LaterYear(before, date.year - 1);
    NextYear(date.year - 1);
    var after := LeapAfter(before);
    LeapAfterIsLeap(before);
    var some := SomeTime(spec);
    LeapDayBeforeYear(before, date.year);
    if forall k | 0 <= k < 1440 && TimeSelected(spec, k) :: 1440 * LeapDay(after) + k < first {
      LeapDayAfterYear(after, date.year);
      before := after;
      LeapAfterIsLeap(before);
      LeapDayAfterYear(LeapAfter(before), date.year);
    }
  }

  lemma LeapDayBeforeYear(leap: int, year: int)
    requires leap < year
    ensures LeapDay(leap) < FirstDay(year)
  {
    NextYear(leap);
    LaterYear(leap + 1, year);
  }

  lemma LeapDayAfterYear(leap: int, year: int)
    ensures leap > year ==> LeapDay(leap) >= FirstDay(year + 1)
  {
    if leap > year { LaterYear(year + 1, leap); }
  }

  lemma FourYears(leap: int)
    requires LeapYear(leap)
    ensures LeapDay(leap + 4) == LeapDay(leap) + 1461
  {
    hide FirstDay;
    assert !LeapYear(leap + 1) && !LeapYear(leap + 2) && !LeapYear(leap + 3);
    NextYear(leap);
    NextYear(leap + 1);
    NextYear(leap + 2);
    NextYear(leap + 3);
  }

  lemma LeapDayIsFound(spec: Spec, first: int)
    requires Usable(spec) && spec.weekday.any && LeapDayDate(spec) && !InSkippedGap(spec, first)
    ensures !Fails(spec, first)
  {
    var before := Around(spec, first);
    var after := LeapAfter(before);
    LeapAfterIsLeap(before);
    var k :| 0 <= k < 1440 && TimeSelected(spec, k) && first <= 1440 * LeapDay(after) + k;
    LeapDaysAreSelected(spec, after, k);
    if after == before + 4 {
      FourYears(before);
    } else {
      assert !Spans(spec, first, before + 4);
      var j :| 0 <= j < 1440 && TimeSelected(spec, j) && first + WINDOW > LeapDay(after) * 1440 + j;
      LeapDaysAreSelected(spec, after, j);
    }
  }

  /** The search fails exactly when the weekday is unrestricted and no selected day of a selected
    * month can be reached: there is none, or only 29 February and the window misses every leap day
    * around a century year that is not a leap year. */
  lemma FailsExactlyWhen(spec: Spec, first: int)
    requires Usable(spec)
    ensures Fails(spec, first) <==> OutOfReach(spec, first)
  {
    if !spec.weekday.any {
      WeekdayIsFound(spec, first);
    } else if YearlyDate(spec) {
      YearlyDateIsFound(spec, first);
    } else if !LeapDayDate(spec) {
      forall t | first <= t < first + WINDOW ensures !Selected(spec, t) {
        if Selected(spec, t) { OnlyLeapDays(spec, t); }
      }
    } else if InSkippedGap(spec, first) {
      var century :| SkippedCentury(century) && Spans(spec, first, century);
      GapFails(spec, first, century);
    } else {
      LeapDayIsFound(spec, first);
    }
  }

  /** From 1 March 1904 to the end of 28 February 2096 five years are enough: the search fails only
    * for dates that no calendar has. */
  lemma FiveYearsSuffice(spec: Spec, first: int)
    requires Usable(spec) && 1440 * (LeapDay(1904) + 1) <= first < 1440 * LeapDay(2096)
    ensures Fails(spec, first) <==> spec.weekday.any && !YearlyDate(spec) && !LeapDayDate(spec)
  {
    hide FirstDay, Fails;
    FailsExactlyWhen(spec, first);
    if century :| SkippedCentury(century) && Spans(spec, first, century) {
      var k := SomeTime(spec);
      assert LeapDay(century - 4) * 1440 + k < first && first + WINDOW <= LeapDay(century + 4) * 1440 + k;
      LeapDaysInOrder(2096, century - 4);
      LeapDaysInOrder(century + 4, 1904);
      assert 1900 < century < 2100;
    }
  }

  /** From 1 March 2096 an expression for 29 February alone is refused, although 2104 has one. */
  lemma LeapDayMissedAfter2096(spec: Spec)
    requires Usable(spec) && spec.weekday.any && spec.month.values == {2} && spec.day.values == {29}
    ensures Fails(spec, 1440 * (LeapDay(2096) + 1))
    ensures exists t | t > 1440 * (LeapDay(2096) + 1) :: Selected(spec, t)
  {
    var first := 1440 * (LeapDay(2096) + 1);
    assert !YearlyDate(spec);
    assert LeapDay(2104) == LeapDay(2096) + 2921;
    assert SkippedCentury(2100) && Spans(spec, first, 2100);
    FailsExactlyWhen(spec, first);
    var k := SomeTime(spec);
    LeapDaysAreSelected(spec, 2104, k);
  }

  /** `Next` on text, for instants in UTC. */
  method Next(expression: string, durations: string -> Option<int>, after: int) returns (next: Option<int>)
    ensures var spec := SpecOf(expression, durations);
      match spec
      case None => next.None?
      case Some(Every(duration)) => next == Some(after + duration)
      case Some(_) =>
        && (next.None? <==> Fails(spec.value, FirstCandidate(after)))
        && (next.Some? ==> exists t :: (next.value == t * MINUTE && next.value > after && Selected(spec.value, t)
             && forall u | after < u * MINUTE < next.value :: !Selected(spec.value, u)))
  {
    hide SpecOf;
    var spec := Parse(expression, durations);
    if spec.None? { return None; }
    if spec.value.Every? { return Some(after + spec.value.duration); }
    next := Search(spec.value, after);
  }

  /** The same for every accepted expression. */
  lemma NextFailsExactlyWhen(expression: string, durations: string -> Option<int>, after: int)
    ensures var spec, first := SpecOf(expression, durations), FirstCandidate(after);
      spec.Some? && spec.value.Cron? ==>
        (Fails(spec.value, first) <==> OutOfReach(spec.value, first))
  {
    hide SpecOf, Fails, Usable, OutOfReach;
    AcceptedIsUsable(expression, durations);
    var spec := SpecOf(expression, durations);
    if spec.Some? && spec.value.Cron? { FailsExactlyWhen(spec.value, FirstCandidate(after)); }
  }
}
