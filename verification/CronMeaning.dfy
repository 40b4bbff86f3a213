/** Which minutes whole cron expressions select. */
module CronMeaning {
  import opened Options
  import opened Text
  import opened TextFacts
  import opened Calendar
  import opened CronField
  import opened CronSearch
  import opened CronTexts
  import opened CronRanges

  predicate FieldsAccepted(words: seq<string>)
    requires |words| == 5
  {
    && FieldOf(words[0], 0, 59, false).Some? && FieldOf(words[1], 0, 23, false).Some?
    && FieldOf(words[2], 1, 31, false).Some? && FieldOf(words[3], 1, 12, false).Some?
    && FieldOf(words[4], 0, 7, true).Some?
  }

  lemma TextAcceptedExactly(text: string, words: seq<string>, durations: string -> Option<int>)
    requires TrimSpace(text) == text && text != "" && !HasPrefix(text, EVERY) && Expanded(text) == text
    requires Fields(text) == words
    ensures SpecOf(text, durations).Some? <==> |words| == 5 && FieldsAccepted(words)
  {
    hide FieldOf, Expanded, HasPrefix, TrimSpace, Fields;
  }

  /** Without a shorthand exactly five accepted fields are an expression. */
  lemma AcceptedExactly(words: seq<string>, durations: string -> Option<int>)
    requires words != [] && (forall i | 0 <= i < |words| :: Word(words[i])) && Word(words[0]) && words[0][0] != '@'
    ensures SpecOf(Joined(words), durations).Some? <==> |words| == 5 && FieldsAccepted(words)
  {
    hide *;
    JoinedIsRead(words);
    TextAcceptedExactly(Joined(words), words, durations);
  }

  predicate Holds(field: FieldSet, value: int) { value in field.values }

  /** An expression selects a minute by its minute, hour and month, and by its day or its weekday: by both
    * if one of the two fields is a star, by either if none is. */
  lemma SelectsExactly(words: seq<string>, durations: string -> Option<int>, t: int)
    requires |words| == 5 && (forall i | 0 <= i < |words| :: Word(words[i])) && Word(words[0]) && words[0][0] != '@'
    requires FieldsAccepted(words)
    ensures var spec, date := SpecOf(Joined(words), durations), DateOf(t / 1440);
      var day, weekday := FieldOf(words[2], 1, 31, false).value, FieldOf(words[4], 0, 7, true).value;
      && spec.Some? && spec.value.Cron?
      && (Selected(spec.value, t) <==>
            && Holds(FieldOf(words[0], 0, 59, false).value, t % 60)
            && Holds(FieldOf(words[1], 0, 23, false).value, t / 60 % 24)
            && Holds(FieldOf(words[3], 1, 12, false).value, date.month)
            && (if day.any || weekday.any then Holds(day, date.day) && Holds(weekday, Weekday(t / 1440))
                else Holds(day, date.day) || Holds(weekday, Weekday(t / 1440))))
  {
    hide FieldOf, SpecOf, Joined, Word, DateOf;
    SpecOfJoined(words, durations);
    assert t % 1440 % 60 == t % 60 && t % 1440 / 60 == t / 60 % 24;
  }

  // ------------------------------------------------------------------- shorthands

  lemma {:induction false} LowerKeepsLength(s: string)
    ensures |Lower(s)| == |s|
  {
    if s != "" { LowerKeepsLength(s[1..]); }
  }

  const CAPITALS := "ABCDEFGHIJKLMNOPQRSTUVWXYZ"
  const LETTERS := "abcdefghijklmnopqrstuvwxyz"

  /** The letters that `c` may stand for when cases are not told apart; two other characters have an ASCII
    * letter as their lower case. */
  lemma LowerLetter(c: char, j: nat)
    requires j < 26
    ensures c == CAPITALS[j] || c == LETTERS[j] ==> Lower([c]) == [LETTERS[j]]
    ensures c as int == 0x212A ==> Lower([c]) == ['k']
    ensures c as int == 0x130 ==> Lower([c]) == ['i']
    ensures c !in CAPITALS && c as int != 0x212A && c as int != 0x130 ==> Lower([c]) == [c]
  {
    assert Lower("") == "";
    assert CAPITALS[j] as int == 65 + j && LETTERS[j] as int == 97 + j;
    if 'A' <= c <= 'Z' { assert CAPITALS[c as int - 65] == c; }
  }

  /** Each character is lowered by itself. */
  lemma {:induction false} LowerTogether(a: string, b: string)
    ensures Lower(a + b) == Lower(a) + Lower(b)
  {
    if a == "" {
      assert a + b == b;
    } else {
      assert (a + b)[1..] == a[1..] + b;
      LowerTogether(a[1..], b);
    }
  }

  /** The words that a macro stands for. */
  function MacroWords(lowered: string): seq<string> {
    if lowered == "@hourly" then ["0", "*", "*", "*", "*"]
    else if lowered == "@daily" then ["0", "0", "*", "*", "*"]
    else if lowered == "@weekly" then ["0", "0", "*", "*", "0"]
    else if lowered == "@monthly" then ["0", "0", "1", "*", "*"]
    else []
  }

  predicate Macro(lowered: string) { lowered in ["@hourly", "@daily", "@weekly", "@monthly"] }

  lemma MacroHasNoInterval(text: string)
    requires Macro(Lower(text))
    ensures text != "" && !HasPrefix(text, EVERY)
  {
    LowerKeepsLength(text);
    var rest := text[1..];
    assert Lower(text)[1] == Lower(rest)[0];
    assert Lower(text)[1] in ['h', 'd', 'w', 'm'];
    assert |EVERY| <= |text| ==> text[..|EVERY|][1] == text[1];
    assert EVERY[1] == 'e';
  }

  lemma MacroText(lowered: string)
    requires Macro(lowered)
    ensures |MacroWords(lowered)| == 5 && forall i | 0 <= i < |MacroWords(lowered)| :: Word(MacroWords(lowered)[i])
    ensures Word(MacroWords(lowered)[0]) && MacroWords(lowered)[0][0] != '@'
    ensures Joined(MacroWords(lowered)) ==
      if lowered == "@hourly" then "0 * * * *" else if lowered == "@daily" then "0 0 * * *"
      else if lowered == "@weekly" then "0 0 * * 0" else "0 0 1 * *"
  {
    JoinedFive(MacroWords(lowered));
    hide Joined;
  }

  /** A shorthand, in any case of letters, is the expression of its words. */
  lemma MacroIsItsWords(e: string, durations: string -> Option<int>)
    requires Macro(Lower(TrimSpace(e)))
    ensures SpecOf(e, durations) == SpecOf(Joined(MacroWords(Lower(TrimSpace(e)))), durations)
  {
    var trimmed, words := TrimSpace(e), MacroWords(Lower(TrimSpace(e)));
    MacroHasNoInterval(trimmed);
    MacroText(Lower(trimmed));
    assert Expanded(trimmed) == Joined(words);
    assert Word(words[0]) && words[0][0] != '@';
    hide Joined, Word, TrimSpace, Fields, HasPrefix, MacroWords, Lower, FieldOf, Macro;
    JoinedIsRead(words);
    hide Expanded;
  }

  // ----------------------------------------------------------- what some texts select

  predicate HasDate(date: Date, weekday: int) { 1 <= date.day <= 31 && 1 <= date.month <= 12 && 0 <= weekday <= 6 }

  lemma EveryDayHasDate(day: int)
    ensures HasDate(DateOf(day), Weekday(day))
  {
    hide DayNumber;
  }

  lemma DigitField(c: char, minimum: int, maximum: int, sundaySeven: bool)
    requires IsDigit(c) && Bounds(minimum, maximum) && minimum <= c as int - '0' as int <= maximum && c < '7'
    ensures Word([c]) && FieldOf([c], minimum, maximum, sundaySeven) == Some(FieldSet({c as int - '0' as int}, false))
  {
    var s := OneMoreDigit("", 0, c);
    assert s == [c];
    NumberOrNothing([c]);
    OneNumberField([c], minimum, maximum, sundaySeven);
  }

  lemma ZeroAndStarFields()
    ensures FieldOf("0", 0, 59, false) == Some(FieldSet({0}, false)) && FieldOf("0", 0, 23, false) == Some(FieldSet({0}, false))
    ensures FieldOf("1", 1, 31, false) == Some(FieldSet({1}, false)) && FieldOf("0", 0, 7, true) == Some(FieldSet({0}, false))
    ensures FieldOf("*", 0, 23, false).Some? && Everything(FieldOf("*", 0, 23, false).value, 0, 23)
    ensures FieldOf("*", 1, 31, false).Some? && Everything(FieldOf("*", 1, 31, false).value, 1, 31)
    ensures FieldOf("*", 1, 12, false).Some? && Everything(FieldOf("*", 1, 12, false).value, 1, 12)
    ensures FieldOf("*", 0, 7, true).Some? && Everything(FieldOf("*", 0, 7, true).value, 0, 6)
  {
    hide FieldOf, Everything, Word;
    DigitField('0', 0, 59, false);
    DigitField('0', 0, 23, false);
    DigitField('1', 1, 31, false);
    DigitField('0', 0, 7, true);
    StarField("*", 0, 23, false);
    StarField("*", 1, 31, false);
    StarField("*", 1, 12, false);
    StarField("*", 0, 7, true);
  }

  /** The field is a star over the range, or one value. */
  ghost predicate StarOr(field: FieldSet, low: int, high: int, only: int) {
    if field.any then Everything(field, low, high) else field.values == {only}
  }

  lemma StarOrHolds(field: FieldSet, low: int, high: int, only: int, v: int)
    requires StarOr(field, low, high, only) && low <= v <= high
    ensures Holds(field, v) <==> field.any || v == only
  {
  }

  /** What an expression at minute 0 selects whose other fields are stars or one value each. */
  lemma FixedTimes(words: seq<string>, durations: string -> Option<int>, t: int, hour: int, day: int, weekday: int)
    requires |words| == 5 && (forall i | 0 <= i < |words| :: Word(words[i])) && Word(words[0]) && words[0][0] != '@'
    requires FieldsAccepted(words) && FieldOf(words[0], 0, 59, false) == Some(FieldSet({0}, false))
    requires StarOr(FieldOf(words[1], 0, 23, false).value, 0, 23, hour)
    requires StarOr(FieldOf(words[2], 1, 31, false).value, 1, 31, day)
    requires Everything(FieldOf(words[3], 1, 12, false).value, 1, 12)
    requires StarOr(FieldOf(words[4], 0, 7, true).value, 0, 6, weekday)
    requires FieldOf(words[2], 1, 31, false).value.any || FieldOf(words[4], 0, 7, true).value.any
    ensures var spec := SpecOf(Joined(words), durations);
      && spec.Some? && spec.value.Cron?
      && (Selected(spec.value, t) <==>
            && t % 60 == 0 && (FieldOf(words[1], 0, 23, false).value.any || t / 60 % 24 == hour)
            && (FieldOf(words[2], 1, 31, false).value.any || DateOf(t / 1440).day == day)
            && (FieldOf(words[4], 0, 7, true).value.any || Weekday(t / 1440) == weekday))
  {
    SelectsExactly(words, durations, t);
    EveryDayHasDate(t / 1440);
    var date := DateOf(t / 1440);
    assert Everything(FieldOf(words[3], 1, 12, false).value, 1, 12) ==> Holds(FieldOf(words[3], 1, 12, false).value, date.month);
    hide FieldOf, SpecOf, Joined, Word, DateOf, Weekday, Selected, StarOr, Everything, FieldsAccepted;
    StarOrHolds(FieldOf(words[1], 0, 23, false).value, 0, 23, hour, t / 60 % 24);
    StarOrHolds(FieldOf(words[2], 1, 31, false).value, 1, 31, day, date.day);
    StarOrHolds(FieldOf(words[4], 0, 7, true).value, 0, 6, weekday, Weekday(t / 1440));
  }

  lemma Midnight(t: int)
    ensures t % 1440 == 0 <==> t % 60 == 0 && t / 60 % 24 == 0
  {
  }

  /** Hourly is minute 0 of every hour, daily midnight, weekly midnight on Sundays, and monthly midnight on
    * the first day of the month. */
  lemma MacroSelects(e: string, durations: string -> Option<int>, t: int)
    requires Macro(Lower(TrimSpace(e)))
    ensures SpecOf(e, durations).Some? && SpecOf(e, durations).value.Cron?
    ensures var lowered := Lower(TrimSpace(e));
      Selected(SpecOf(e, durations).value, t) <==>
        && (if lowered == "@hourly" then t % 60 == 0 else t % 1440 == 0)
        && (lowered == "@weekly" ==> Weekday(t / 1440) == 0)
        && (lowered == "@monthly" ==> DateOf(t / 1440).day == 1)
  {
    MacroIsItsWords(e, durations);
    MacroWordsSelect(Lower(TrimSpace(e)), durations, t);
    hide *;
  }

  lemma MacroWordsSelect(lowered: string, durations: string -> Option<int>, t: int)
    requires Macro(lowered)
    ensures |MacroWords(lowered)| == 5
    ensures var spec := SpecOf(Joined(MacroWords(lowered)), durations);
      && spec.Some? && spec.value.Cron?
      && (Selected(spec.value, t) <==>
            && (if lowered == "@hourly" then t % 60 == 0 else t % 1440 == 0)
            && (lowered == "@weekly" ==> Weekday(t / 1440) == 0)
            && (lowered == "@monthly" ==> DateOf(t / 1440).day == 1))
  {
    MacroText(lowered);
    MacroFields(lowered);
    Midnight(t);
    hide *;
    FixedTimes(MacroWords(lowered), durations, t, 0, 1, 0);
  }

  lemma MacroFields(lowered: string)
    requires Macro(lowered)
    ensures var words := MacroWords(lowered);
      && |words| == 5 && FieldsAccepted(words) && FieldOf(words[0], 0, 59, false) == Some(FieldSet({0}, false))
      && StarOr(FieldOf(words[1], 0, 23, false).value, 0, 23, 0)
      && StarOr(FieldOf(words[2], 1, 31, false).value, 1, 31, 1)
      && Everything(FieldOf(words[3], 1, 12, false).value, 1, 12)
      && StarOr(FieldOf(words[4], 0, 7, true).value, 0, 6, 0)
      && (FieldOf(words[1], 0, 23, false).value.any <==> lowered == "@hourly")
      && (FieldOf(words[2], 1, 31, false).value.any <==> lowered != "@monthly")
      && (FieldOf(words[4], 0, 7, true).value.any <==> lowered != "@weekly")
  {
    hide FieldOf;
    ZeroAndStarFields();
  }

  const MORNINGS: seq<string> := ["0", "9", "*", "*", "1-5"]
  const THIRTEENTHS: seq<string> := ["0", "0", "13", "*", "5"]

  lemma JoinedTexts()
    ensures Joined(MORNINGS) == "0 9 * * 1-5" && Joined(THIRTEENTHS) == "0 0 13 * 5"
  {
    JoinedFive(MORNINGS);
    JoinedFive(THIRTEENTHS);
    hide Joined;
  }

  lemma EveryDayFrom(first: int, last: int, v: int)
    requires 0 <= first <= last < 7
    ensures v in Stepped(first, last, 1, true) <==> first <= v <= last
  {
    assert first <= v <= last ==> Named(v, true) == v;
  }

  lemma DigitNumber(c: char)
    requires IsDigit(c)
    ensures Number([c]) && DigitsValue([c]) == c as int - '0' as int
  {
    var s := OneMoreDigit("", 0, c);
    assert s == [c];
  }

  lemma OneToFive()
    ensures Word("1-5") && FieldOf("1-5", 0, 7, true).Some? && !FieldOf("1-5", 0, 7, true).value.any
    ensures forall v :: v in FieldOf("1-5", 0, 7, true).value.values <==> 1 <= v <= 5
  {
    DigitNumber('1');
    DigitNumber('5');
    assert ['1'] + "-" + ['5'] == "1-5" && Bounds(0, 7);
    hide *;
    RangeIsRead(['1'], ['5'], 0, 7);
    RangeField(['1'], ['5'], 0, 7, true);
    forall v ensures v in Stepped(1, 5, 1, true) <==> 1 <= v <= 5 {
      EveryDayFrom(1, 5, v);
    }
  }

  predicate Readable(words: seq<string>) {
    |words| == 5 && (forall i | 0 <= i < |words| :: Word(words[i])) && Word(words[0]) && words[0][0] != '@'
  }

  /** The fields of an expression, each by the value it was read as. */
  predicate ReadAs(words: seq<string>, minute: FieldSet, hour: FieldSet, day: FieldSet, month: FieldSet, weekday: FieldSet) {
    && Readable(words)
    && FieldOf(words[0], 0, 59, false) == Some(minute) && FieldOf(words[1], 0, 23, false) == Some(hour)
    && FieldOf(words[2], 1, 31, false) == Some(day) && FieldOf(words[3], 1, 12, false) == Some(month)
    && FieldOf(words[4], 0, 7, true) == Some(weekday)
  }

  /** What an expression at one time of the day selects in every month. */
  lemma OneTimeSelects(words: seq<string>, durations: string -> Option<int>, t: int, minute: int, hour: int,
      day: FieldSet, month: FieldSet, weekday: FieldSet)
    requires ReadAs(words, FieldSet({minute}, false), FieldSet({hour}, false), day, month, weekday)
    requires Everything(month, 1, 12) && 0 <= minute < 60 && 0 <= hour < 24
    ensures var spec, d, w := SpecOf(Joined(words), durations), DateOf(t / 1440).day, Weekday(t / 1440);
      && spec.Some? && spec.value.Cron?
      && (Selected(spec.value, t) <==>
            && t % 1440 == 60 * hour + minute
            && (if day.any || weekday.any then d in day.values && w in weekday.values
                else d in day.values || w in weekday.values))
  {
    SelectsExactly(words, durations, t);
    EveryDayHasDate(t / 1440);
    hide FieldOf, SpecOf, Joined, Word, DateOf, Weekday, Selected, DayNumber;
    TimeOfDay(t, minute, hour);
  }

  lemma TimeOfDay(t: int, minute: int, hour: int)
    requires 0 <= minute < 60 && 0 <= hour < 24
    ensures t % 1440 == 60 * hour + minute <==> t % 60 == minute && t / 60 % 24 == hour
  {
  }

  lemma ReadableTexts()
    ensures Readable(MORNINGS) && Readable(THIRTEENTHS)
  {
    assert Word("0") && Word("9") && Word("*") && Word("13") && Word("5") && Word("1-5");
    hide Word;
  }

  lemma NineAndThirteen()
    ensures FieldOf("9", 0, 23, false) == Some(FieldSet({9}, false))
    ensures FieldOf("13", 1, 31, false) == Some(FieldSet({13}, false))
    ensures FieldOf("5", 0, 7, true) == Some(FieldSet({5}, false))
  {
    var nine := OneMoreDigit("", 0, '9');
    assert nine == "9";
    TwoDigits('1', '3');
    assert ['1', '3'] == "13";
    hide FieldOf, Word;
    OneNumberField("9", 0, 23, false);
    OneNumberField("13", 1, 31, false);
    DigitField('5', 0, 7, true);
  }

  lemma MorningFields() returns (day: FieldSet, month: FieldSet, weekday: FieldSet)
    ensures ReadAs(MORNINGS, FieldSet({0}, false), FieldSet({9}, false), day, month, weekday)
    ensures Everything(day, 1, 31) && Everything(month, 1, 12) && !weekday.any
    ensures forall v :: v in weekday.values <==> 1 <= v <= 5
  {
    hide FieldOf, Readable, Everything;
    ReadableTexts();
    NineAndThirteen();
    OneToFive();
    ZeroAndStarFields();
    day, month := FieldOf("*", 1, 31, false).value, FieldOf("*", 1, 12, false).value;
    weekday := FieldOf("1-5", 0, 7, true).value;
  }

  /** `0 9 * * 1-5` selects nine o'clock from Monday to Friday, and nothing else. */
  lemma WeekdayMornings(durations: string -> Option<int>, t: int)
    ensures SpecOf("0 9 * * 1-5", durations).Some? && SpecOf("0 9 * * 1-5", durations).value.Cron?
    ensures Selected(SpecOf("0 9 * * 1-5", durations).value, t) <==> t % 1440 == 9 * 60 && 1 <= Weekday(t / 1440) <= 5
  {
    var day, month, weekday := MorningFields();
    EveryDayHasDate(t / 1440);
    assert DateOf(t / 1440).day in day.values && day.any;
    hide *;
    OneTimeSelects(MORNINGS, durations, t, 0, 9, day, month, weekday);
    JoinedTexts();
  }

  lemma ThirteenthFields() returns (month: FieldSet)
    ensures ReadAs(THIRTEENTHS, FieldSet({0}, false), FieldSet({0}, false), FieldSet({13}, false), month, FieldSet({5}, false))
    ensures Everything(month, 1, 12)
  {
    hide FieldOf, Readable, Everything;
    ReadableTexts();
    NineAndThirteen();
    ZeroAndStarFields();
    month := FieldOf("*", 1, 12, false).value;
  }

  /** With both day fields restricted either is enough: `0 0 13 * 5` selects every midnight that starts a
    * Friday or the 13th of a month. */
  lemma EitherDay(durations: string -> Option<int>, t: int)
    ensures SpecOf("0 0 13 * 5", durations).Some? && SpecOf("0 0 13 * 5", durations).value.Cron?
    ensures Selected(SpecOf("0 0 13 * 5", durations).value, t) <==>
      t % 1440 == 0 && (DateOf(t / 1440).day == 13 || Weekday(t / 1440) == 5)
  {
    var month := ThirteenthFields();
    hide *;
    OneTimeSelects(THIRTEENTHS, durations, t, 0, 0, FieldSet({13}, false), month, FieldSet({5}, false));
    JoinedTexts();
  }

  /** `@every d` is accepted exactly for a duration of at least a minute, and means that duration. */
  lemma IntervalExactly(d: string, durations: string -> Option<int>)
    requires Word(d)
    ensures SpecOf("@every " + d, durations) ==
      if durations(d).Some? && durations(d).value >= 60_000_000_000 then Some(Spec.Every(durations(d).value)) else None
  {
    var text := "@every " + d;
    assert d[0] in d && d[|d| - 1] in d;
    assert text[0] == '@' && text[|text| - 1] == d[|d| - 1];
    TrimsToItself(text);
    TrimsToItself(d);
    assert text[..|EVERY|] == EVERY && text[|EVERY|..] == d;
  }
}
