/** Cron expressions and the search for the next instant that one selects, in UTC.
  * Instants are nanoseconds, and candidates whole minutes, since the start of year 1. */
module CronSearch {
  import opened Options
  import opened Text
  import opened Calendar
  import opened CronField

  datatype Spec =
    | Every(duration: int)
    | Cron(minute: FieldSet, hour: FieldSet, day: FieldSet, month: FieldSet, weekday: FieldSet)

  const MINUTE: int := 60_000_000_000
  const WINDOW: int := 5 * 366 * 24 * 60
  const EVERY := "@every "

  /** `strings.ToLower`, as far as it can produce ASCII letters. */
  function Lower(s: string): string {
    if s == "" then ""
    else
      var c := s[0];
      var lowered := if 'A' <= c <= 'Z' then (c as int + 32) as char
        else if c as int == 0x212A then 'k' else if c as int == 0x130 then 'i' else c;
      [lowered] + Lower(s[1..])
  }

  function Expanded(expression: string): string {
    var lowered := Lower(expression);
    if lowered == "@hourly" then "0 * * * *"
    else if lowered == "@daily" then "0 0 * * *"
    else if lowered == "@weekly" then "0 0 * * 0"
    else if lowered == "@monthly" then "0 0 1 * *"
    else expression
  }

  /** `durations` stands for `time.ParseDuration`. */
  function SpecOf(expression: string, durations: string -> Option<int>): Option<Spec> {
    var trimmed := TrimSpace(expression);
    if trimmed == "" then None
    else if HasPrefix(trimmed, EVERY) then
      var duration := durations(TrimSpace(trimmed[|EVERY|..]));
      if duration.None? || duration.value < MINUTE then None else Some(Every(duration.value))
    else
      var parts := Fields(Expanded(trimmed));
      if |parts| != 5 then None
      else
        var minute := FieldOf(parts[0], 0, 59, false);
        var hour := FieldOf(parts[1], 0, 23, false);
        var day := FieldOf(parts[2], 1, 31, false);
        var month := FieldOf(parts[3], 1, 12, false);
        var weekday := FieldOf(parts[4], 0, 7, true);
        if minute.None? || hour.None? || day.None? || month.None? || weekday.None? then None
        else Some(Cron(minute.value, hour.value, day.value, month.value, weekday.value))
  }

  method Parse(expression: string, durations: string -> Option<int>) returns (spec: Option<Spec>)
    ensures spec == SpecOf(expression, durations)
  {
    hide FieldOf;
    var trimmed := TrimSpace(expression);
    if trimmed == "" { return None; }
    if HasPrefix(trimmed, EVERY) {
      var duration := durations(TrimSpace(trimmed[|EVERY|..]));
      if duration.None? || duration.value < MINUTE { return None; }
      return Some(Every(duration.value));
    }
    var parts := Fields(Expanded(trimmed));
    if |parts| != 5 { return None; }
    var minute := ParseField(parts[0], 0, 59, false);
    if minute.None? { return None; }
    var hour := ParseField(parts[1], 0, 23, false);
    if hour.None? { return None; }
    var day := ParseField(parts[2], 1, 31, false);
    if day.None? { return None; }
    var month := ParseField(parts[3], 1, 12, false);
    if month.None? { return None; }
    var weekday := ParseField(parts[4], 0, 7, true);
    if weekday.None? { return None; }
    return Some(Cron(minute.value, hour.value, day.value, month.value, weekday.value));
  }

  /** The Vixie rule: two restricted day fields are alternatives, otherwise both must hold. */
  predicate DaySelected(spec: Spec, day: int)
    requires spec.Cron?
  {
    var d, w := DateOf(day).day in spec.day.values, Weekday(day) in spec.weekday.values;
    if !spec.day.any && !spec.weekday.any then d || w else d && w
  }

  predicate TimeSelected(spec: Spec, minuteOfDay: int)
    requires spec.Cron?
  {
    minuteOfDay % 60 in spec.minute.values && minuteOfDay / 60 in spec.hour.values
  }

  predicate Selected(spec: Spec, minute: int)
    requires spec.Cron?
  {
    && TimeSelected(spec, minute % 1440)
    && DateOf(minute / 1440).month in spec.month.values
    && DaySelected(spec, minute / 1440)
  }

  function FirstCandidate(after: int): int { after / MINUTE + 1 }

  /** The search returns the least selected minute after `after`, or fails exactly when the window
    * of five 366-day years holds none. */
  method Search(spec: Spec, after: int) returns (found: Option<int>)
    requires spec.Cron?
    ensures found.Some? ==> exists t :: (found.value == t * MINUTE && found.value > after && Selected(spec, t)
      && forall u | after < u * MINUTE < found.value :: !Selected(spec, u))
    ensures found.None? <==> forall t | FirstCandidate(after) <= t < FirstCandidate(after) + WINDOW :: !Selected(spec, t)
  {
    var candidate := after / MINUTE + 1;
    for i := 0 to WINDOW
      invariant candidate == FirstCandidate(after) + i
      invariant forall t | FirstCandidate(after) <= t < candidate :: !Selected(spec, t)
    {
      var date := DateOf(candidate / 1440);
      var dayMatches := date.day in spec.day.values;
      var weekdayMatches := Weekday(candidate / 1440) in spec.weekday.values;
      var both := dayMatches && weekdayMatches;
      if !spec.day.any && !spec.weekday.any {
        both := dayMatches || weekdayMatches;
      }
      var minuteOfDay := candidate % 1440;
      if minuteOfDay % 60 in spec.minute.values && minuteOfDay / 60 in spec.hour.values
         && date.month in spec.month.values && both {
        assert Selected(spec, candidate);
        return Some(candidate * MINUTE);
      }
      assert !Selected(spec, candidate);
      candidate := candidate + 1;
    }
    return None;
  }

  /** What every accepted five-field expression gives: see `FieldIsUsable`. */
  ghost predicate Usable(spec: Spec) {
    && spec.Cron?
    && (exists m | 0 <= m <= 59 :: m in spec.minute.values)
    && (exists h | 0 <= h <= 23 :: h in spec.hour.values)
    && (exists m | 1 <= m <= 12 :: m in spec.month.values)
    && (exists d | 1 <= d <= 31 :: d in spec.day.values)
    && (exists w | 0 <= w <= 6 :: w in spec.weekday.values)
    && (spec.day.any ==> forall d | 1 <= d <= 31 :: d in spec.day.values)
    && (spec.weekday.any ==> forall w | 0 <= w <= 6 :: w in spec.weekday.values)
  }

  lemma AcceptedIsUsable(expression: string, durations: string -> Option<int>)
    ensures var spec := SpecOf(expression, durations); spec.Some? && spec.value.Cron? ==> Usable(spec.value)
  {
    hide FieldOf;
    var spec := SpecOf(expression, durations);
    if spec.Some? && spec.value.Cron? {
      var parts := Fields(Expanded(TrimSpace(expression)));
      FieldIsUsable(parts[0], 0, 59, false);
      FieldIsUsable(parts[1], 0, 23, false);
      FieldIsUsable(parts[2], 1, 31, false);
      FieldIsUsable(parts[3], 1, 12, false);
      FieldIsUsable(parts[4], 0, 7, true);
      FieldsAreUsable(spec.value);
    }
  }

  lemma FieldsAreUsable(spec: Spec)
    requires spec.Cron?
    requires exists v | 0 <= v <= 59 :: Fold(v, false) in spec.minute.values
    requires exists v | 0 <= v <= 23 :: Fold(v, false) in spec.hour.values
    requires exists v | 1 <= v <= 31 :: Fold(v, false) in spec.day.values
    requires exists v | 1 <= v <= 12 :: Fold(v, false) in spec.month.values
    requires exists v | 0 <= v <= 7 :: Fold(v, true) in spec.weekday.values
    requires spec.day.any ==> forall v | 1 <= v <= 31 :: Fold(v, false) in spec.day.values
    requires spec.weekday.any ==> forall v | 0 <= v <= 7 :: Fold(v, true) in spec.weekday.values
    ensures Usable(spec)
  {
    var w :| 0 <= w <= 7 && Fold(w, true) in spec.weekday.values;
    var m :| 1 <= m <= 12 && Fold(m, false) in spec.month.values;
    var d :| 1 <= d <= 31 && Fold(d, false) in spec.day.values;
    var h :| 0 <= h <= 23 && Fold(h, false) in spec.hour.values;
    var i :| 0 <= i <= 59 && Fold(i, false) in spec.minute.values;
    if spec.weekday.any {
      forall w | 0 <= w <= 6 ensures w in spec.weekday.values { assert Fold(w, true) == w; }
    }
    if spec.day.any {
      forall d | 1 <= d <= 31 ensures d in spec.day.values { assert Fold(d, false) == d; }
    }
  }
}
