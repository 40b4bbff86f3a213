/** One field of a cron expression: a list of stepped ranges, read into a set of values. */
module CronField {
  import opened Options
  import opened Text

  datatype Stride = Stride(start: int, end: int, step: int)
  datatype FieldSet = FieldSet(values: set<int>, any: bool)

  const LIMIT := 59

  /** The largest range any caller asks for. */
  predicate Bounds(minimum: int, maximum: int) { 0 <= minimum <= maximum <= LIMIT }

  predicate Whole(base: string) { base == "*" || base == "?" }

  function StepPart(item: string): Option<(string, int)> {
    if Count(item, '/') > 1 then None
    else if '/' in item then
      var parts := Cut(item, '/');
      var step := Atoi(parts.1);
      if step.None? || step.value <= 0 then None else Some((parts.0, step.value))
    else Some((item, 1))
  }

  function RangePart(base: string, minimum: int, maximum: int): Option<(int, int)> {
    if Whole(base) then Some((minimum, maximum))
    else if Count(base, '-') > 1 then None
    else if '-' in base then
      var parts := Cut(base, '-');
      var start, end := Atoi(parts.0), Atoi(parts.1);
      if start.Some? && end.Some? then Some((start.value, end.value)) else None
    else
      var value := Atoi(base);
      if value.Some? then Some((value.value, value.value)) else None
  }

  /** The range that a list item asks for, if it is well formed. */
  function StrideOf(item: string, minimum: int, maximum: int): (r: Option<Stride>)
    ensures r.Some? ==> minimum <= r.value.start <= r.value.end <= maximum && 1 <= r.value.step <= MAX_INT
  {
    var trimmed := TrimSpace(item);
    if trimmed == "" then None
    else
      var stepped := StepPart(trimmed);
      if stepped.None? then None
      else
        var range := RangePart(stepped.value.0, minimum, maximum);
        if range.None? || range.value.0 < minimum || range.value.1 > maximum || range.value.0 > range.value.1 then None
        else Some(Stride(range.value.0, range.value.1, stepped.value.1))
  }

  /** Addition in Go's 64-bit `int`, for a positive step. */
  function Advance(value: int, step: int): int {
    if value + step > MAX_INT then value + step - 0x1_0000_0000_0000_0000 else value + step
  }

  predicate Looping(value: int, end: int, step: int) {
    MIN_INT <= value <= MAX_INT && 0 <= end <= LIMIT && 1 <= step <= MAX_INT
  }

  /** The loop `value += step` stops even when the addition wraps round: this falls at every pass. */
  function Rank(value: int, end: int, step: int): (rank: nat)
    requires Looping(value, end, step)
  {
    var next := value + step;
    if value > end then 0
    else if step <= MAX_INT - LIMIT then end - value + 1
    else if value >= 0 then 2 * value + 3
    else if next < 0 then 2
    else if next > end then 1
    else 2 * next + 4
  }

  /** Every value that the loop visits. */
  function Visited(value: int, end: int, step: int): (s: set<int>)
    requires Looping(value, end, step)
    ensures value <= end ==> value in s
    decreases Rank(value, end, step)
  {
    if value > end then {} else {value} + Visited(Advance(value, step), end, step)
  }

  function Fold(value: int, sundaySeven: bool): int { if sundaySeven && value == 7 then 0 else value }

  function Folded(values: set<int>, sundaySeven: bool): set<int> {
    set value | value in values :: Fold(value, sundaySeven)
  }

  function Values(items: seq<string>, minimum: int, maximum: int, sundaySeven: bool): (s: set<int>)
    requires Bounds(minimum, maximum)
    requires forall i | 0 <= i < |items| :: StrideOf(items[i], minimum, maximum).Some?
  {
    if items == [] then {}
    else
      var last := |items| - 1;
      var stride := StrideOf(items[last], minimum, maximum).value;
      Values(items[..last], minimum, maximum, sundaySeven)
      + Folded(Visited(stride.start, stride.end, stride.step), sundaySeven)
  }

  function FieldOf(raw: string, minimum: int, maximum: int, sundaySeven: bool): Option<FieldSet>
    requires Bounds(minimum, maximum)
  {
    var trimmed := TrimSpace(raw);
    var items := Split(trimmed, ',');
    if trimmed == "" || exists i | 0 <= i < |items| :: StrideOf(items[i], minimum, maximum).None? then None
    else Some(FieldSet(Values(items, minimum, maximum, sundaySeven), Whole(trimmed)))
  }

  method ParseRange(base: string, minimum: int, maximum: int) returns (range: Option<(int, int)>)
    ensures range == RangePart(base, minimum, maximum)
  {
    var start, end := minimum, maximum;
    if base != "*" && base != "?" {
      if Count(base, '-') > 1 { return None; }
      if '-' in base {
        var parts := Cut(base, '-');
        var first := Atoi(parts.0);
        if first.None? { return None; }
        var second := Atoi(parts.1);
        if second.None? { return None; }
        start, end := first.value, second.value;
      } else {
        var value := Atoi(base);
        if value.None? { return None; }
        start, end := value.value, value.value;
      }
    }
    return Some((start, end));
  }

  method ParseItem(raw: string, minimum: int, maximum: int) returns (stride: Option<Stride>)
    ensures stride == StrideOf(raw, minimum, maximum)
  {
    var item := TrimSpace(raw);
    if item == "" { return None; }
    var base, step := item, 1;
    if Count(item, '/') > 1 { return None; }
    if '/' in item {
      var parts := Cut(item, '/');
      base := parts.0;
      var parsed := Atoi(parts.1);
      if parsed.None? || parsed.value <= 0 { return None; }
      step := parsed.value;
    }
    var range := ParseRange(base, minimum, maximum);
    if range.None? { return None; }
    var start, end := range.value.0, range.value.1;
    if start < minimum || end > maximum || start > end { return None; }
    return Some(Stride(start, end, step));
  }

  method ParseField(raw: string, minimum: int, maximum: int, sundaySeven: bool) returns (field: Option<FieldSet>)
    requires Bounds(minimum, maximum)
    ensures field == FieldOf(raw, minimum, maximum, sundaySeven)
  {
    hide StrideOf;
    var trimmed := TrimSpace(raw);
    if trimmed == "" { return None; }
    var values: set<int> := {};
    var items := Split(trimmed, ',');
    for n := 0 to |items|
      invariant forall i | 0 <= i < n :: StrideOf(items[i], minimum, maximum).Some?
      invariant values == Values(items[..n], minimum, maximum, sundaySeven)
      invariant n > 0 ==> values != {}
    {
      var stride := ParseItem(items[n], minimum, maximum);
      if stride.None? { return None; }
      values := AddStride(values, stride.value.start, stride.value.end, stride.value.step, sundaySeven);
      assert items[..n + 1][..n] == items[..n];
    }
    assert items[..|items|] == items;
    if values == {} { return None; }
    return Some(FieldSet(values, trimmed == "*" || trimmed == "?"));
  }

  method AddStride(before: set<int>, start: int, end: int, step: int, sundaySeven: bool) returns (values: set<int>)
    requires Looping(start, end, step) && start <= end
    ensures values == before + Folded(Visited(start, end, step), sundaySeven)
    ensures values != {}
  {
    values := before;
    var value := start;
    while value <= end
      invariant Looping(value, end, step)
      invariant before + Folded(Visited(start, end, step), sundaySeven)
             == values + Folded(Visited(value, end, step), sundaySeven)
      decreases Rank(value, end, step)
    {
      if sundaySeven && value == 7 {
        values := values + {0};
      } else {
        values := values + {value};
      }
      FoldedUnion(value, Visited(Advance(value, step), end, step), sundaySeven);
      value := Advance(value, step);
    }
    assert Fold(start, sundaySeven) in Folded(Visited(start, end, step), sundaySeven);
  }

  lemma FoldedUnion(value: int, rest: set<int>, sundaySeven: bool)
    ensures Folded({value} + rest, sundaySeven) == {Fold(value, sundaySeven)} + Folded(rest, sundaySeven)
  {
    assert Fold(value, sundaySeven) in Folded({value} + rest, sundaySeven);
    forall v | v in rest ensures Fold(v, sundaySeven) in Folded({value} + rest, sundaySeven) {
      assert v in {value} + rest;
    }
  }

  /** The declared meaning of a list item: `start`, `start + step`, and so on up to `end`. */
  ghost predicate OnStride(s: Stride, value: int) {
    value <= s.end && exists k: nat :: value == Nth(s, k)
  }

  function Nth(s: Stride, k: nat): int { s.start + k * s.step }

  /** The addition in the loop runs past the largest 64-bit integer. */
  predicate Overflows(s: Stride) { s.start + s.step > MAX_INT }

  lemma {:induction false} VisitedIsOnStride(s: Stride, value: int) returns (k: nat)
    requires 0 <= s.start && Looping(s.start, s.end, s.step) && !Overflows(s)
    requires value in Visited(s.start, s.end, s.step)
    ensures value <= s.end && value == Nth(s, k)
    decreases Rank(s.start, s.end, s.step)
  {
    k := 0;
    if value != s.start {
      var next := s.(start := s.start + s.step);
      var before := VisitedIsOnStride(next, value);
      k := before + 1;
      assert (before + 1) * s.step == before * s.step + s.step;
    }
  }

  lemma {:induction false} OnStrideIsVisited(s: Stride, k: nat)
    requires 0 <= s.start && Looping(s.start, s.end, s.step) && !Overflows(s)
    requires Nth(s, k) <= s.end
    ensures Nth(s, k) in Visited(s.start, s.end, s.step)
    decreases k
  {
    assert k > 0 ==> k * s.step == (k - 1) * s.step + s.step && (k - 1) * s.step >= 0;
    if k > 0 {
      var next := s.(start := s.start + s.step);
      OnStrideIsVisited(next, k - 1);
    }
  }

  lemma VisitedIsStride(s: Stride, value: int)
    requires 0 <= s.start && Looping(s.start, s.end, s.step) && !Overflows(s)
    ensures value in Visited(s.start, s.end, s.step) <==> OnStride(s, value)
  {
    if value in Visited(s.start, s.end, s.step) {
      var k := VisitedIsOnStride(s, value);
    }
    if OnStride(s, value) {
      var k: nat :| value == Nth(s, k);
      OnStrideIsVisited(s, k);
    }
  }

  /** A loop that wraps round also visits a value that no range can declare. */
  lemma OverflowVisitsNegative(s: Stride)
    requires 0 <= s.start <= s.end && Looping(s.start, s.end, s.step) && Overflows(s)
    ensures exists value :: value < 0 && value in Visited(s.start, s.end, s.step)
  {
    var next := Advance(s.start, s.step);
    assert next < 0 && next in Visited(next, s.end, s.step);
    assert next in Visited(s.start, s.end, s.step);
  }

  ghost predicate DeclaredBy(item: string, minimum: int, maximum: int, v: int)
    requires StrideOf(item, minimum, maximum).Some?
  {
    OnStride(StrideOf(item, minimum, maximum).value, v)
  }

  ghost predicate Declared(items: seq<string>, minimum: int, maximum: int, sundaySeven: bool, value: int)
    requires forall i | 0 <= i < |items| :: StrideOf(items[i], minimum, maximum).Some?
  {
    exists i, v | 0 <= i < |items| :: DeclaredBy(items[i], minimum, maximum, v) && Fold(v, sundaySeven) == value
  }

  lemma {:induction false} ValuesAre(items: seq<string>, minimum: int, maximum: int, sundaySeven: bool, value: int)
    requires Bounds(minimum, maximum)
    requires forall i | 0 <= i < |items| :: StrideOf(items[i], minimum, maximum).Some?
    ensures value in Values(items, minimum, maximum, sundaySeven)
      <==> exists i, v | 0 <= i < |items| :: InItem(items[i], minimum, maximum, v) && Fold(v, sundaySeven) == value
  {
    hide StrideOf;
    if items != [] {
      var last := |items| - 1;
      ValuesAre(items[..last], minimum, maximum, sundaySeven, value);
      if i, v :| 0 <= i < |items| && InItem(items[i], minimum, maximum, v) && Fold(v, sundaySeven) == value {
        if i < last { assert items[..last][i] == items[i]; }
      }
    }
  }

  predicate InItem(item: string, minimum: int, maximum: int, v: int)
    requires Bounds(minimum, maximum) && StrideOf(item, minimum, maximum).Some?
  {
    var s := StrideOf(item, minimum, maximum).value;
    v in Visited(s.start, s.end, s.step)
  }

  /** An accepted field holds exactly the union of its stepped ranges, with 7 read as Sunday,
    * if and only if no range has a step that the 64-bit addition cannot make. */
  lemma FieldIsItsRanges(raw: string, minimum: int, maximum: int, sundaySeven: bool)
    requires Bounds(minimum, maximum) && FieldOf(raw, minimum, maximum, sundaySeven).Some?
    ensures var items := Split(TrimSpace(raw), ',');
      var values := FieldOf(raw, minimum, maximum, sundaySeven).value.values;
      (forall value :: value in values <==> Declared(items, minimum, maximum, sundaySeven, value))
      <==> forall i | 0 <= i < |items| :: !Overflows(StrideOf(items[i], minimum, maximum).value)
  {
    hide StrideOf;
    var items := Split(TrimSpace(raw), ',');
    if i :| 0 <= i < |items| && Overflows(StrideOf(items[i], minimum, maximum).value) {
      OverflowIsUndeclared(items, minimum, maximum, sundaySeven, i);
    } else {
      forall value
        ensures value in Values(items, minimum, maximum, sundaySeven)
          <==> Declared(items, minimum, maximum, sundaySeven, value)
      {
        WithoutOverflow(items, minimum, maximum, sundaySeven, value);
      }
    }
  }

  lemma WithoutOverflow(items: seq<string>, minimum: int, maximum: int, sundaySeven: bool, value: int)
    requires Bounds(minimum, maximum)
    requires forall i | 0 <= i < |items| :: StrideOf(items[i], minimum, maximum).Some?
    requires forall i | 0 <= i < |items| :: !Overflows(StrideOf(items[i], minimum, maximum).value)
    ensures value in Values(items, minimum, maximum, sundaySeven)
      <==> Declared(items, minimum, maximum, sundaySeven, value)
  {
    hide StrideOf;
    ValuesAre(items, minimum, maximum, sundaySeven, value);
    forall i, v | 0 <= i < |items|
      ensures InItem(items[i], minimum, maximum, v) <==> DeclaredBy(items[i], minimum, maximum, v)
    {
      VisitedIsStride(StrideOf(items[i], minimum, maximum).value, v);
    }
  }

  lemma OverflowIsUndeclared(items: seq<string>, minimum: int, maximum: int, sundaySeven: bool, i: nat)
    requires Bounds(minimum, maximum)
    requires forall j | 0 <= j < |items| :: StrideOf(items[j], minimum, maximum).Some?
    requires i < |items| && Overflows(StrideOf(items[i], minimum, maximum).value)
    ensures exists value :: (value in Values(items, minimum, maximum, sundaySeven)
      && !Declared(items, minimum, maximum, sundaySeven, value))
  {
    hide StrideOf;
    var s := StrideOf(items[i], minimum, maximum).value;
    OverflowVisitsNegative(s);
    var v :| v < 0 && v in Visited(s.start, s.end, s.step);
    ValuesAre(items, minimum, maximum, sundaySeven, v);
    assert InItem(items[i], minimum, maximum, v) && Fold(v, sundaySeven) == v;
    hide *;
    if Declared(items, minimum, maximum, sundaySeven, v) { DeclaredIsNatural(items, minimum, maximum, sundaySeven, v); }
  }

  lemma DeclaredIsNatural(items: seq<string>, minimum: int, maximum: int, sundaySeven: bool, value: int)
    requires Bounds(minimum, maximum)
    requires forall j | 0 <= j < |items| :: StrideOf(items[j], minimum, maximum).Some?
    requires Declared(items, minimum, maximum, sundaySeven, value)
    ensures value >= 0
  {
    hide StrideOf;
    var j, w :| 0 <= j < |items| && DeclaredBy(items[j], minimum, maximum, w) && Fold(w, sundaySeven) == value;
    var t := StrideOf(items[j], minimum, maximum).value;
    var k: nat :| w == Nth(t, k);
    assert k * t.step >= 0;
  }

  /** An accepted field names at least one value of its range, and all of them when it is a star. */
  lemma FieldIsUsable(raw: string, minimum: int, maximum: int, sundaySeven: bool)
    requires Bounds(minimum, maximum) && FieldOf(raw, minimum, maximum, sundaySeven).Some?
    ensures var field := FieldOf(raw, minimum, maximum, sundaySeven).value;
      && (exists v | minimum <= v <= maximum :: Fold(v, sundaySeven) in field.values)
      && (field.any ==> forall v | minimum <= v <= maximum :: Fold(v, sundaySeven) in field.values)
  {
    var trimmed := TrimSpace(raw);
    var items := Split(trimmed, ',');
    var s := StrideOf(items[0], minimum, maximum).value;
    ValuesAre(items, minimum, maximum, sundaySeven, Fold(s.start, sundaySeven));
    assert InItem(items[0], minimum, maximum, s.start);
    if Whole(trimmed) {
      StarIsWhole(trimmed, minimum, maximum);
      forall v | minimum <= v <= maximum
        ensures Fold(v, sundaySeven) in Values(items, minimum, maximum, sundaySeven)
      {
        OnStrideIsVisited(Stride(minimum, maximum, 1), v - minimum);
        assert InItem(items[0], minimum, maximum, v);
        ValuesAre(items, minimum, maximum, sundaySeven, Fold(v, sundaySeven));
      }
    }
  }

  lemma StarIsWhole(star: string, minimum: int, maximum: int)
    requires Bounds(minimum, maximum) && Whole(star)
    ensures Split(star, ',') == [star]
    ensures StrideOf(star, minimum, maximum) == Some(Stride(minimum, maximum, 1))
  {
    assert Split(star[1..], ',') == [""];
    assert [star[0]] + "" == star && [""][1..] == [];
    assert TrimLeft(star) == star && TrimRight(star) == star;
    assert Count(star, '/') == 0;
  }
}
