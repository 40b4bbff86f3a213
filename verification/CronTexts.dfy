/** Two accepted cron texts that show where the program departs from what it declares. */
module CronTexts {
  import opened Options
  import opened Text
  import opened TextFacts
  import opened Calendar
  import opened CronField
  import opened CronSearch
  import opened CronWindow

  const WRAPPING := "59/9223372036854775807"
  const LEAP_DAY := "0 0 29 2 *"

  // ------------------------------------------------------------ fields of one item

  lemma NothingFolded(values: set<int>)
    ensures Folded(values, false) == values
  {
    forall v | v in values ensures v in Folded(values, false) {
      assert Fold(v, false) == v;
    }
  }

  lemma OneItemField(item: string, s: Stride, minimum: int, maximum: int)
    requires Bounds(minimum, maximum) && item != "" && TrimSpace(item) == item && Split(item, ',') == [item]
    requires StrideOf(item, minimum, maximum) == Some(s)
    ensures FieldOf(item, minimum, maximum, false) == Some(FieldSet(Visited(s.start, s.end, s.step), Whole(item)))
  {
    hide StrideOf, TrimSpace, Split;
    var items := [item];
    NothingFolded(Visited(s.start, s.end, s.step));
    assert items[..0] == [] && Values(items, minimum, maximum, false) == Visited(s.start, s.end, s.step);
  }

  /** A field that is one number selects this number alone. */
  lemma NumberField(s: string, n: int, minimum: int, maximum: int)
    requires s != "" && Digits(s) && DigitsValue(s) == n && Bounds(minimum, maximum) && minimum <= n <= maximum
    ensures FieldOf(s, minimum, maximum, false) == Some(FieldSet({n}, false))
  {
    DigitsAreANumber(s, n);
    assert s[0] in s && s[|s| - 1] in s;
    TrimsToItself(s);
    Absent(s, ',');
    Absent(s, '/');
    Absent(s, '-');
    assert StrideOf(s, minimum, maximum) == Some(Stride(n, n, 1));
    assert Visited(n, n, 1) == {n};
    hide StrideOf, TrimSpace, Split;
    OneItemField(s, Stride(n, n, 1), minimum, maximum);
  }

  // ---------------------------------------------------------- the step that wraps

  /** A number stepped by a number. */
  lemma SteppedStride(base: string, n: int, step: string, k: int, minimum: int, maximum: int)
    requires base != "" && Digits(base) && DigitsValue(base) == n && Bounds(minimum, maximum) && minimum <= n <= maximum
    requires step != "" && Digits(step) && DigitsValue(step) == k && 1 <= k <= MAX_INT
    ensures var item := base + ['/'] + step;
      && TrimSpace(item) == item && Split(item, ',') == [item]
      && StrideOf(item, minimum, maximum) == Some(Stride(n, n, k)) && Word(item)
  {
    var item := base + ['/'] + step;
    DigitsAreANumber(base, n);
    DigitsAreANumber(step, k);
    assert base[0] in base && step[|step| - 1] in step;
    assert item[0] == base[0] && item[|item| - 1] == step[|step| - 1];
    TrimsToItself(item);
    CutBetween(base, '/', step);
    CountBetween(base, '/', step);
    Absent(base, '/');
    Absent(base, '-');
    Absent(step, '/');
    Absent(item, ',');
    assert StepPart(item) == Some((base, k)) && RangePart(base, minimum, maximum) == Some((n, n));
  }

  lemma WrappingIsStepped()
    ensures WRAPPING == "59" + ['/'] + "9223372036854775807"
  {
  }

  lemma WrappingText()
    ensures Word(WRAPPING) && WRAPPING[0] == '5'
    ensures TrimSpace(WRAPPING) == WRAPPING && Split(WRAPPING, ',') == [WRAPPING]
    ensures StrideOf(WRAPPING, 0, 59) == Some(Stride(59, 59, MAX_INT))
    ensures FieldOf(WRAPPING, 0, 59, false) == Some(FieldSet(Visited(59, 59, MAX_INT), false))
  {
    LargestInteger();
    TwoDigits('5', '9');
    assert ['5', '9'] == "59";
    WrappingIsStepped();
    hide *;
    SteppedStride("59", 59, "9223372036854775807", MAX_INT, 0, 59);
    OneItemField(WRAPPING, Stride(59, 59, MAX_INT), 0, 59);
  }

  /** Minute 59 stepped by the largest integer selects minute 57 as well. */
  lemma LargestStepSelectsMore()
    ensures FieldOf(WRAPPING, 0, 59, false).Some? && 57 in FieldOf(WRAPPING, 0, 59, false).value.values
    ensures Split(TrimSpace(WRAPPING), ',') == [WRAPPING] && !Declared([WRAPPING], 0, 59, false, 57)
  {
    WrappingText();
    hide StrideOf, TrimSpace, FieldOf;
    assert Advance(59, MAX_INT) == MIN_INT + 58;
    assert Advance(MIN_INT + 58, MAX_INT) == 57;
    assert 57 in Visited(57, 59, MAX_INT);
    assert 57 in Visited(MIN_INT + 58, 59, MAX_INT);
    forall k: nat ensures Nth(Stride(59, 59, MAX_INT), k) != 57 {
      assert k * MAX_INT >= 0;
    }
  }

  // -------------------------------------------------------------------- five fields

  /** The field is a star and selects every value of the range. */
  ghost predicate Everything(field: FieldSet, low: int, high: int) {
    field.any && forall v | low <= v <= high :: v in field.values
  }

  lemma StarField(star: string, minimum: int, maximum: int, sundaySeven: bool)
    requires star == "*" && Bounds(minimum, maximum) && (sundaySeven ==> maximum == 7)
    ensures Word(star) && FieldOf(star, minimum, maximum, sundaySeven).Some?
    ensures Everything(FieldOf(star, minimum, maximum, sundaySeven).value, minimum, if sundaySeven then 6 else maximum)
  {
    StarIsWhole(star, minimum, maximum);
    TrimsToItself(star);
    var field := FieldOf(star, minimum, maximum, sundaySeven);
    FieldIsUsable(star, minimum, maximum, sundaySeven);
    forall v | minimum <= v <= maximum && !(sundaySeven && v == 7) ensures v in field.value.values {
      assert Fold(v, sundaySeven) == v;
    }
  }

  lemma NoShorthand(text: string)
    requires text != "" && text[0] != '@'
    ensures !HasPrefix(text, EVERY) && Expanded(text) == text
  {
    assert |EVERY| <= |text| ==> text[..|EVERY|][0] == text[0];
    assert Lower(text) != "" && Lower(text)[0] != '@';
  }

  function Joined(words: seq<string>): string
    requires words != []
  {
    if |words| == 1 then words[0] else words[0] + " " + Joined(words[1..])
  }

  lemma {:induction false} WordsOfJoined(words: seq<string>)
    requires words != [] && forall i | 0 <= i < |words| :: Word(words[i])
    ensures Fields(Joined(words)) == words
    ensures var text := Joined(words); Word(words[0]) && text != "" && text[0] == words[0][0] && !IsSpace(text[|text| - 1])
  {
    if |words| == 1 {
      FirstWord(words[0], "");
      assert words[0][|words[0]| - 1] in words[0];
    } else {
      var rest := Joined(words[1..]);
      WordsOfJoined(words[1..]);
      FirstWord(words[0], rest);
      var text := words[0] + " " + rest;
      assert text[|text| - 1] == rest[|rest| - 1];
    }
  }

  /** Words that do not start with `@` are read as they are. */
  lemma JoinedIsRead(words: seq<string>)
    requires words != [] && (forall i | 0 <= i < |words| :: Word(words[i]))
    requires Word(words[0]) && words[0][0] != '@'
    ensures var text := Joined(words);
      TrimSpace(text) == text && text != "" && !HasPrefix(text, EVERY) && Expanded(text) == text && Fields(text) == words
  {
    WordsOfJoined(words);
    assert words[0][0] in words[0];
    TrimsToItself(Joined(words));
    NoShorthand(Joined(words));
  }

  /** Five of them are five fields. */
  lemma SpecOfJoined(words: seq<string>, durations: string -> Option<int>)
    requires |words| == 5 && (forall i | 0 <= i < |words| :: Word(words[i]))
    requires Word(words[0]) && words[0][0] != '@'
    requires FieldOf(words[0], 0, 59, false).Some? && FieldOf(words[1], 0, 23, false).Some?
    requires FieldOf(words[2], 1, 31, false).Some? && FieldOf(words[3], 1, 12, false).Some?
    requires FieldOf(words[4], 0, 7, true).Some?
    ensures SpecOf(Joined(words), durations) ==
      Some(Cron(FieldOf(words[0], 0, 59, false).value, FieldOf(words[1], 0, 23, false).value,
                FieldOf(words[2], 1, 31, false).value, FieldOf(words[3], 1, 12, false).value,
                FieldOf(words[4], 0, 7, true).value))
  {
    JoinedIsRead(words);
    hide Word, FieldOf, Joined, Expanded, HasPrefix, TrimSpace, Fields;
  }

  lemma JoinedFive(words: seq<string>)
    requires |words| == 5
    ensures Joined(words) == words[0] + " " + words[1] + " " + words[2] + " " + words[3] + " " + words[4]
  {
    assert Joined(words[3..]) == words[3] + " " + words[4];
    assert words[2..][1..] == words[3..];
    assert Joined(words[2..]) == words[2] + " " + Joined(words[3..]);
    assert words[1..][1..] == words[2..];
    assert Joined(words[1..]) == words[1] + " " + Joined(words[2..]);
  }

  // ------------------------------------------------------------- what they select

  lemma StarsJoined(minute: string)
    ensures Joined([minute, "*", "*", "*", "*"]) == minute + " * * * *"
  {
    JoinedFive([minute, "*", "*", "*", "*"]);
    hide Joined;
    assert " " + "*" + " " + "*" + " " + "*" + " " + "*" == " * * * *";
  }

  lemma LeapDayJoined()
    ensures Joined(["0", "0", "29", "2", "*"]) == LEAP_DAY
  {
    JoinedFive(["0", "0", "29", "2", "*"]);
    hide Joined;
  }

  lemma StarsSelect(spec: Spec, t: int)
    requires spec.Cron? && t % 60 in spec.minute.values && Everything(spec.hour, 0, 23)
    requires Everything(spec.day, 1, 31) && Everything(spec.month, 1, 12) && Everything(spec.weekday, 0, 6)
    ensures Selected(spec, t)
  {
    hide DateOf, DayNumber;
    var date, w, h := DateOf(t / 1440), Weekday(t / 1440), t % 1440 / 60;
    assert 1 <= date.day <= 31 && date.day in spec.day.values;
    assert date.month in spec.month.values && w in spec.weekday.values;
    assert 0 <= h <= 23 && h in spec.hour.values && t % 1440 % 60 == t % 60;
  }

  predicate FourStars(words: seq<string>) { |words| == 5 && forall i | 1 <= i < 5 :: words[i] == "*" }

  lemma StarFields(words: seq<string>)
    requires FourStars(words) && Word(words[0])
    ensures |words| == 5 && forall i | 0 <= i < |words| :: Word(words[i])
    ensures FieldOf(words[1], 0, 23, false).Some? && Everything(FieldOf(words[1], 0, 23, false).value, 0, 23)
    ensures FieldOf(words[2], 1, 31, false).Some? && Everything(FieldOf(words[2], 1, 31, false).value, 1, 31)
    ensures FieldOf(words[3], 1, 12, false).Some? && Everything(FieldOf(words[3], 1, 12, false).value, 1, 12)
    ensures FieldOf(words[4], 0, 7, true).Some? && Everything(FieldOf(words[4], 0, 7, true).value, 0, 6)
  {
    hide FieldOf, Everything, Word;
    StarField(words[1], 0, 23, false);
    StarField(words[2], 1, 31, false);
    StarField(words[3], 1, 12, false);
    StarField(words[4], 0, 7, true);
  }

  lemma MinuteWithStars(words: seq<string>, durations: string -> Option<int>, t: int)
    requires FourStars(words) && Word(words[0]) && words[0][0] != '@'
    requires FieldOf(words[0], 0, 59, false).Some? && t % 60 in FieldOf(words[0], 0, 59, false).value.values
    ensures var spec := SpecOf(Joined(words), durations); spec.Some? && spec.value.Cron? && Selected(spec.value, t)
  {
    hide *;
    StarFields(words);
    SpecOfJoined(words, durations);
    var spec := SpecOf(Joined(words), durations).value;
    StarsSelect(spec, t);
  }

  /** With stars in the other fields a selected minute is selected in every hour. */
  lemma MinuteOfEveryHour(minute: string, durations: string -> Option<int>, t: int)
    requires Word(minute) && minute[0] != '@'
    requires FieldOf(minute, 0, 59, false).Some? && t % 60 in FieldOf(minute, 0, 59, false).value.values
    ensures var spec := SpecOf(minute + " * * * *", durations); spec.Some? && spec.value.Cron? && Selected(spec.value, t)
  {
    var words := [minute, "*", "*", "*", "*"];
    assert FourStars(words);
    hide *;
    StarsJoined(minute);
    MinuteWithStars(words, durations, t);
  }

  /** Every 57th minute is selected by an expression that names minute 59 alone. */
  lemma WrappedMinuteIsSelected(durations: string -> Option<int>, t: int)
    requires t % 60 == 57
    ensures var spec := SpecOf(WRAPPING + " * * * *", durations); spec.Some? && spec.value.Cron? && Selected(spec.value, t)
  {
    WrappingText();
    LargestStepSelectsMore();
    hide FieldOf, SpecOf, Selected, Word;
    MinuteOfEveryHour(WRAPPING, durations, t);
  }

  lemma LeapDayFields()
    ensures FieldOf("0", 0, 59, false) == Some(FieldSet({0}, false))
    ensures FieldOf("0", 0, 23, false) == Some(FieldSet({0}, false))
    ensures FieldOf("29", 1, 31, false) == Some(FieldSet({29}, false))
    ensures FieldOf("2", 1, 12, false) == Some(FieldSet({2}, false))
  {
    hide FieldOf;
    TwoDigits('2', '9');
    assert ['2', '9'] == "29";
    NumberField("0", 0, 0, 59);
    NumberField("0", 0, 0, 23);
    NumberField("29", 29, 1, 31);
    NumberField("2", 2, 1, 12);
  }

  lemma LeapDayText(durations: string -> Option<int>)
    ensures SpecOf(LEAP_DAY, durations).Some?
    ensures var spec := SpecOf(LEAP_DAY, durations).value;
      && spec.Cron? && spec.month == FieldSet({2}, false) && spec.day == FieldSet({29}, false) && spec.weekday.any
  {
    var words := ["0", "0", "29", "2", "*"];
    LeapDayJoined();
    hide FieldOf, SpecOf, Joined;
    LeapDayFields();
    StarField(words[4], 0, 7, true);
    SpecOfJoined(words, durations);
  }

  /** From 1 March 2096 the expression `0 0 29 2 *` is refused, although 2104 has such a day. */
  lemma LeapDayTextMissedAfter2096(durations: string -> Option<int>)
    ensures SpecOf(LEAP_DAY, durations).Some? && SpecOf(LEAP_DAY, durations).value.Cron?
    ensures var spec, first := SpecOf(LEAP_DAY, durations).value, 1440 * (LeapDay(2096) + 1);
      && FirstCandidate((first - 1) * MINUTE) == first && Fails(spec, first)
      && exists t | t > first :: Selected(spec, t)
  {
    LeapDayText(durations);
    AcceptedIsUsable(LEAP_DAY, durations);
    hide SpecOf, Fails, Selected;
    LeapDayMissedAfter2096(SpecOf(LEAP_DAY, durations).value);
  }
}
