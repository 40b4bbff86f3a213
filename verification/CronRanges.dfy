/** What the items of a cron field mean as texts: numbers, ranges, stars, steps and lists. */
module CronRanges {
  import opened Options
  import opened Text
  import opened TextFacts
  import opened CronField
  import opened CronTexts

  /** One item of a list. */
  predicate Item(s: string) { Word(s) && ',' !in s }

  /** 7 is another name for Sunday where a field is a weekday. */
  function Named(v: int, sundaySeven: bool): int { if sundaySeven && v == 7 then 0 else v }

  lemma ItemIsRead(item: string)
    requires Item(item)
    ensures TrimSpace(item) == item && Split(item, ',') == [item]
  {
    assert item[0] in item && item[|item| - 1] in item;
    TrimsToItself(item);
    Absent(item, ',');
  }

  /** A field of one item is accepted exactly when the item is, and holds what the loop visits. */
  lemma FieldOfItem(item: string, minimum: int, maximum: int, sundaySeven: bool)
    requires Bounds(minimum, maximum) && Item(item)
    ensures var s := StrideOf(item, minimum, maximum);
      FieldOf(item, minimum, maximum, sundaySeven) ==
        if s.None? then None
        else Some(FieldSet(Folded(Visited(s.value.start, s.value.end, s.value.step), sundaySeven), CronField.Whole(item)))
  {
    ItemIsRead(item);
    hide StrideOf, TrimSpace, Split;
    var items := [item];
    assert items[0] == item;
    if StrideOf(item, minimum, maximum).Some? {
      var s := StrideOf(item, minimum, maximum).value;
      assert items[..0] == [];
      assert Values(items, minimum, maximum, sundaySeven) == Folded(Visited(s.start, s.end, s.step), sundaySeven);
    }
  }

  lemma OnStrideIsModulo(s: Stride, v: int)
    requires s.step >= 1
    ensures OnStride(s, v) <==> s.start <= v <= s.end && (v - s.start) % s.step == 0
  {
    if OnStride(s, v) {
      var k: nat :| v == Nth(s, k);
      assert v - s.start == k * s.step && k * s.step >= 0;
      Multiple(k, s.step);
    }
    if s.start <= v <= s.end && (v - s.start) % s.step == 0 {
      var k: nat := (v - s.start) / s.step;
      assert v == Nth(s, k);
    }
  }

  lemma Multiple(k: nat, n: nat)
    requires n >= 1
    ensures (k * n) % n == 0
  {
    var q, r := (k * n) / n, (k * n) % n;
    assert k * n == q * n + r;
    assert (k - q) * n == r;
    assert k - q >= 1 ==> (k - q) * n >= n;
    assert k - q <= -1 ==> (k - q) * n <= -1 * n;
  }

  /** Every `step`-th value from `first` to `last`. */
  function Stepped(first: int, last: int, step: int, sundaySeven: bool): set<int>
    requires step >= 1
  {
    set v | first <= v <= last && (v - first) % step == 0 :: Named(v, sundaySeven)
  }

  /** Without an overflow the loop visits every `step`-th value from `start` to `end`. */
  lemma VisitedOutright(s: Stride, sundaySeven: bool)
    requires 0 <= s.start && Looping(s.start, s.end, s.step) && s.start + s.step <= MAX_INT
    ensures Folded(Visited(s.start, s.end, s.step), sundaySeven) == Stepped(s.start, s.end, s.step, sundaySeven)
  {
    forall v ensures v in Visited(s.start, s.end, s.step) <==> s.start <= v <= s.end && (v - s.start) % s.step == 0 {
      VisitedIsStride(s, v);
      OnStrideIsModulo(s, v);
    }
    hide Visited;
    assert forall v :: Fold(v, sundaySeven) == Named(v, sundaySeven);
  }

  lemma FieldOfStride(item: string, s: Option<Stride>, minimum: int, maximum: int, sundaySeven: bool)
    requires Bounds(minimum, maximum) && Item(item) && !CronField.Whole(item) && StrideOf(item, minimum, maximum) == s
    ensures FieldOf(item, minimum, maximum, sundaySeven).Some? == s.Some?
    ensures s.Some? ==> !FieldOf(item, minimum, maximum, sundaySeven).value.any
    ensures s.Some? && s.value.start + s.value.step <= MAX_INT ==>
      FieldOf(item, minimum, maximum, sundaySeven).value.values == Stepped(s.value.start, s.value.end, s.value.step, sundaySeven)
  {
    FieldOfItem(item, minimum, maximum, sundaySeven);
    hide FieldOf, StrideOf, Item, Visited, Folded, Stepped;
    if s.Some? && s.value.start + s.value.step <= MAX_INT { VisitedOutright(s.value, sundaySeven); }
  }

  // ------------------------------------------------------------------- ranges as texts

  lemma RangeIsRead(a: string, b: string, minimum: int, maximum: int)
    requires Number(a) && Number(b)
    ensures var base := a + "-" + b;
      && Item(base) && Word(base) && '/' !in base && !CronField.Whole(base)
      && RangePart(base, minimum, maximum) ==
           if DigitsValue(a) <= MAX_INT && DigitsValue(b) <= MAX_INT then Some((DigitsValue(a), DigitsValue(b))) else None
  {
    var base := a + ['-'] + b;
    NumberOrNothing(a);
    NumberOrNothing(b);
    CutBetween(a, '-', b);
    CountBetween(a, '-', b);
    Absent(a, '-');
    Absent(b, '-');
    assert base[|a|] == '-';
  }

  lemma StepIsRead(base: string, k: string)
    requires Item(base) && '/' !in base && Number(k)
    ensures var item := base + "/" + k;
      && Item(item) && !CronField.Whole(item)
      && StepPart(item) == if 1 <= DigitsValue(k) <= MAX_INT then Some((base, DigitsValue(k))) else None
    ensures StepPart(base) == Some((base, 1))
  {
    var item := base + ['/'] + k;
    NumberOrNothing(k);
    CutBetween(base, '/', k);
    CountBetween(base, '/', k);
    Absent(base, '/');
    Absent(k, '/');
    assert item[|base|] == '/';
  }

  /** A base and its step are accepted exactly inside the range. */
  lemma StrideOfParts(item: string, base: string, step: Option<int>, range: Option<(int, int)>, minimum: int, maximum: int)
    requires Item(item) && Bounds(minimum, maximum) && (step.Some? ==> step.value >= 1)
    requires StepPart(item) == (if step.Some? then Some((base, step.value)) else None)
    requires RangePart(base, minimum, maximum) == range
    ensures StrideOf(item, minimum, maximum) ==
      if step.Some? && range.Some? && minimum <= range.value.0 <= range.value.1 <= maximum
      then Some(Stride(range.value.0, range.value.1, step.value)) else None
  {
    ItemIsRead(item);
    hide StepPart, RangePart, TrimSpace, Split;
  }

  function Numbers(a: string, b: string): Option<(int, int)>
    requires Number(a) && Number(b)
  {
    if DigitsValue(a) <= MAX_INT && DigitsValue(b) <= MAX_INT then Some((DigitsValue(a), DigitsValue(b))) else None
  }

  function Step(k: string): Option<int>
    requires Number(k)
  {
    if 1 <= DigitsValue(k) <= MAX_INT then Some(DigitsValue(k)) else None
  }

  /** The range `a-b` is accepted exactly when minimum <= a <= b <= maximum, and holds every value from
    * `a` to `b`; as a weekday, 7 is Sunday. */
  lemma RangeField(a: string, b: string, minimum: int, maximum: int, sundaySeven: bool)
    requires Number(a) && Number(b) && Bounds(minimum, maximum)
    ensures var field, first, last := FieldOf(a + "-" + b, minimum, maximum, sundaySeven), DigitsValue(a), DigitsValue(b);
      && (field.Some? <==> minimum <= first <= last <= maximum)
      && (field.Some? ==> !field.value.any)
      && (field.Some? ==> field.value.values == Stepped(first, last, 1, sundaySeven))
  {
    var item := a + "-" + b;
    RangeIsRead(a, b, minimum, maximum);
    StepIsRead(item, "1");
    hide StepPart, RangePart, Item, CronField.Whole, Stepped, StrideOf, FieldOf, DigitsValue;
    StrideOfParts(item, item, Some(1), Numbers(a, b), minimum, maximum);
    FieldOfStride(item, StrideOf(item, minimum, maximum), minimum, maximum, sundaySeven);
  }

  /** The range `a-b/k` is accepted exactly when also 1 <= k < 2^63, and holds every k-th value from `a`
    * to `b`, unless the addition of `k` to `a` overflows. */
  lemma SteppedRangeField(a: string, b: string, k: string, minimum: int, maximum: int, sundaySeven: bool)
    requires Number(a) && Number(b) && Number(k) && Bounds(minimum, maximum)
    ensures var field := FieldOf(a + "-" + b + "/" + k, minimum, maximum, sundaySeven);
      var first, last, step := DigitsValue(a), DigitsValue(b), DigitsValue(k);
      && (field.Some? <==> minimum <= first <= last <= maximum && 1 <= step <= MAX_INT)
      && (field.Some? ==> !field.value.any)
      && (field.Some? && first + step <= MAX_INT ==> field.value.values == Stepped(first, last, step, sundaySeven))
  {
    var base, item := a + "-" + b, a + "-" + b + "/" + k;
    RangeIsRead(a, b, minimum, maximum);
    StepIsRead(base, k);
    hide StepPart, RangePart, Item, CronField.Whole, Stepped, StrideOf, FieldOf, DigitsValue;
    StrideOfParts(item, base, Step(k), Numbers(a, b), minimum, maximum);
    FieldOfStride(item, StrideOf(item, minimum, maximum), minimum, maximum, sundaySeven);
  }

  /** The item `*` followed by `/k` is accepted exactly for 1 <= k < 2^63, and holds every k-th value of the
    * whole range; it does not count as a star. */
  lemma SteppedStarField(k: string, minimum: int, maximum: int, sundaySeven: bool)
    requires Number(k) && Bounds(minimum, maximum)
    ensures var field, step := FieldOf("*" + "/" + k, minimum, maximum, sundaySeven), DigitsValue(k);
      && (field.Some? <==> 1 <= step <= MAX_INT)
      && (field.Some? ==> !field.value.any)
      && (field.Some? && minimum + step <= MAX_INT ==> field.value.values == Stepped(minimum, maximum, step, sundaySeven))
  {
    var item := "*" + "/" + k;
    StepIsRead("*", k);
    assert RangePart("*", minimum, maximum) == Some((minimum, maximum));
    hide StepPart, RangePart, Item, CronField.Whole, Stepped, StrideOf, FieldOf, DigitsValue;
    StrideOfParts(item, "*", Step(k), Some((minimum, maximum)), minimum, maximum);
    FieldOfStride(item, StrideOf(item, minimum, maximum), minimum, maximum, sundaySeven);
  }

  lemma NumberIsRead(a: string, minimum: int, maximum: int)
    requires Number(a)
    ensures Item(a) && '/' !in a && !CronField.Whole(a) && RangePart(a, minimum, maximum) == Numbers(a, a)
  {
    NumberOrNothing(a);
    Absent(a, '-');
    assert a[0] in a;
  }

  lemma SteppedOfOne(v: int, step: int, sundaySeven: bool)
    requires step >= 1
    ensures Stepped(v, v, step, sundaySeven) == {if sundaySeven && v == 7 then 0 else v}
  {
    assert (v - v) % step == 0;
    assert Named(v, sundaySeven) in Stepped(v, v, step, sundaySeven);
  }

  /** A number is accepted exactly inside the range, and holds itself alone. */
  lemma OneNumberField(a: string, minimum: int, maximum: int, sundaySeven: bool)
    requires Number(a) && Bounds(minimum, maximum)
    ensures var field, v := FieldOf(a, minimum, maximum, sundaySeven), DigitsValue(a);
      && (field.Some? <==> minimum <= v <= maximum)
      && (field.Some? ==> field.value == FieldSet({if sundaySeven && v == 7 then 0 else v}, false))
  {
    NumberIsRead(a, minimum, maximum);
    StepIsRead(a, "1");
    SteppedOfOne(DigitsValue(a), 1, sundaySeven);
    hide StepPart, RangePart, Item, CronField.Whole, Stepped, StrideOf, FieldOf, DigitsValue;
    StrideOfParts(a, a, Some(1), Numbers(a, a), minimum, maximum);
    FieldOfStride(a, StrideOf(a, minimum, maximum), minimum, maximum, sundaySeven);
  }

  /** A list is accepted exactly when both of its parts are, and holds what either holds. */
  lemma ListField(x: string, y: string, minimum: int, maximum: int, sundaySeven: bool)
    requires Word(x) && Item(y) && Bounds(minimum, maximum)
    ensures var field, left, right := FieldOf(x + "," + y, minimum, maximum, sundaySeven),
        FieldOf(x, minimum, maximum, sundaySeven), FieldOf(y, minimum, maximum, sundaySeven);
      && (field.Some? <==> left.Some? && right.Some?)
      && (field.Some? ==> field.value == FieldSet(left.value.values + right.value.values, false))
  {
    var list := x + [','] + y;
    assert Word(y) && ',' !in y;
    WordsTogether(x, y);
    SplitBetween(x, ',', y);
    Absent(y, ',');
    hide *;
    FieldOfItems(list, Split(x, ',') + [y], minimum, maximum, sundaySeven);
    FieldOfItems(x, Split(x, ','), minimum, maximum, sundaySeven);
    FieldOfItems(y, [y], minimum, maximum, sundaySeven);
    ItemsTogether(Split(x, ','), y, minimum, maximum, sundaySeven);
  }

  predicate Accepts(items: seq<string>, minimum: int, maximum: int) {
    forall i | 0 <= i < |items| :: StrideOf(items[i], minimum, maximum).Some?
  }

  lemma FieldOfItems(text: string, items: seq<string>, minimum: int, maximum: int, sundaySeven: bool)
    requires Bounds(minimum, maximum) && text != "" && TrimSpace(text) == text && Split(text, ',') == items
    ensures FieldOf(text, minimum, maximum, sundaySeven).Some? <==> Accepts(items, minimum, maximum)
    ensures Accepts(items, minimum, maximum) ==>
      FieldOf(text, minimum, maximum, sundaySeven).value
        == FieldSet(Values(items, minimum, maximum, sundaySeven), CronField.Whole(text))
  {
    hide StrideOf, TrimSpace, Split, Values;
  }

  lemma WordsTogether(x: string, y: string)
    requires Word(x) && Word(y)
    ensures TrimSpace(x) == x && TrimSpace(y) == y && x != "" && y != ""
    ensures var list := x + [','] + y; TrimSpace(list) == list && list != "" && !CronField.Whole(list)
    ensures !IsSpace(y[0]) && !IsSpace(y[|y| - 1])
  {
    var list := x + [','] + y;
    assert x[0] in x && x[|x| - 1] in x && y[0] in y && y[|y| - 1] in y;
    assert list[0] == x[0] && list[|list| - 1] == y[|y| - 1] && |list| >= 2;
    TrimsToItself(list);
    TrimsToItself(x);
    TrimsToItself(y);
  }

  lemma ItemsTogether(items: seq<string>, y: string, minimum: int, maximum: int, sundaySeven: bool)
    requires Bounds(minimum, maximum)
    ensures Accepts(items + [y], minimum, maximum) <==> Accepts(items, minimum, maximum) && Accepts([y], minimum, maximum)
    ensures Accepts(items + [y], minimum, maximum) ==>
      Values(items + [y], minimum, maximum, sundaySeven)
        == Values(items, minimum, maximum, sundaySeven) + Values([y], minimum, maximum, sundaySeven)
  {
    hide StrideOf;
    var all, one := items + [y], [y];
    assert all[|items|] == y && all[..|items|] == items && one[0] == y;
    assert forall i | 0 <= i < |items| :: all[i] == items[i];
    assert one[..0] == [];
  }
}
