/** Agent versions: parsing and the order that decides whether an update applies. */
module Version {
  import opened Options
  import opened Text
  import opened TextFacts

  const MINIMUM_SELF_UPDATE: seq<int> := [0, 2, 0]

  /** The text up to the first build or pre-release mark. */
  function Stem(s: string): string {
    if s == "" || s[0] == '+' || s[0] == '-' then "" else [s[0]] + Stem(s[1..])
  }

  function TrimmedStem(value: string): string {
    var t := TrimSpace(value);
    Stem(if HasPrefix(t, "v") then t[1..] else t)
  }

  /** A version is three dot-separated non-negative numbers. */
  predicate IsNumber(part: string) { Atoi(part).Some? && Atoi(part).value >= 0 }

  function VersionOf(value: string): (v: Option<seq<int>>)
    ensures v.Some? ==> |v.value| == 3
  {
    var parts := Split(TrimmedStem(value), '.');
    if |parts| == 3 && forall i | 0 <= i < 3 :: IsNumber(parts[i])
    then Some([Atoi(parts[0]).value, Atoi(parts[1]).value, Atoi(parts[2]).value]) else None
  }

  method ParseVersion(value: string) returns (version: seq<int>, ok: bool)
    ensures ok == VersionOf(value).Some?
    ensures ok ==> version == VersionOf(value).value
  {
    version, ok := [0, 0, 0], false;
    var parts := Split(TrimmedStem(value), '.');
    if |parts| != 3 { return; }
    for index := 0 to 3
      invariant |version| == 3
      invariant forall i | 0 <= i < index :: IsNumber(parts[i]) && version[i] == Atoi(parts[i]).value
    {
      var parsed := Atoi(parts[index]);
      if parsed.None? || parsed.value < 0 { return; }
      version := version[index := parsed.value];
    }
    ok := true;
  }

  /** Lexicographic order: the first component that differs decides. */
  ghost predicate Less(a: seq<int>, b: seq<int>)
    requires |a| == 3 && |b| == 3
  {
    exists i | 0 <= i < 3 :: a[i] < b[i] && forall j | 0 <= j < i :: a[j] == b[j]
  }

  /** An Agent at `current` may move to `target`. */
  ghost predicate Newer(current: string, target: string) {
    && VersionOf(current).Some? && VersionOf(target).Some?
    && !Less(VersionOf(current).value, MINIMUM_SELF_UPDATE)
    && Less(VersionOf(current).value, VersionOf(target).value)
  }

  method Compare(a: seq<int>, b: seq<int>) returns (differ: bool, greater: bool)
    requires |a| == 3 && |b| == 3
    ensures !differ <==> a == b
    ensures differ ==> (greater <==> Less(b, a)) && (!greater <==> Less(a, b))
  {
    for index := 0 to 3
      invariant forall i | 0 <= i < index :: a[i] == b[i]
    {
      if a[index] != b[index] { return true, a[index] > b[index]; }
    }
    return false, false;
  }

  method UpdateAvailable(current: string, target: string) returns (available: bool)
    ensures available <==> Newer(current, target)
  {
    var supported, parsed := ParseVersion(current);
    if !parsed { return false; }
    var differ, greater := Compare(supported, MINIMUM_SELF_UPDATE);
    if differ && !greater { return false; }
    var currentVersion, currentOK := ParseVersion(current);
    var targetVersion, targetOK := ParseVersion(target);
    if !currentOK || !targetOK { return false; }
    differ, greater := Compare(targetVersion, currentVersion);
    return differ && greater;
  }

  /** Capability checks: unreadable versions have no capability. */
  method AtLeast(current: string, minimum: string) returns (enough: bool)
    ensures enough <==> (VersionOf(current).Some? && VersionOf(minimum).Some?
                         && !Less(VersionOf(current).value, VersionOf(minimum).value))
  {
    var currentVersion, currentOK := ParseVersion(current);
    var minimumVersion, minimumOK := ParseVersion(minimum);
    if !currentOK || !minimumOK { return false; }
    var differ, greater := Compare(currentVersion, minimumVersion);
    LessIsStrictTotalOrder(currentVersion, minimumVersion, currentVersion);
    return !differ || greater;
  }

  lemma LessIsStrictTotalOrder(a: seq<int>, b: seq<int>, c: seq<int>)
    requires |a| == 3 && |b| == 3 && |c| == 3
    ensures !Less(a, a)
    ensures Less(a, b) && Less(b, c) ==> Less(a, c)
    ensures Less(a, b) || Less(b, a) || a == b
    ensures !(Less(a, b) && Less(b, a))
  {
    if Less(a, b) && Less(b, c) {
      var i :| 0 <= i < 3 && a[i] < b[i] && forall j | 0 <= j < i :: a[j] == b[j];
      var k :| 0 <= k < 3 && b[k] < c[k] && forall j | 0 <= j < k :: b[j] == c[j];
      var m := if i < k then i else k;
      assert a[m] < c[m] && forall j | 0 <= j < m :: a[j] == c[j];
    }
    if a != b {
      var i := if a[0] != b[0] then 0 else if a[1] != b[1] then 1 else 2;
      assert a[i] < b[i] || b[i] < a[i];
      assert forall j | 0 <= j < i :: a[j] == b[j];
    }
  }

  /** The update relation is a strict order on versions, so updates cannot cycle. */
  lemma NewerIsStrictOrder(a: string, b: string, c: string)
    ensures !Newer(a, a)
    ensures Newer(a, b) && Newer(b, c) ==> Newer(a, c)
    ensures !(Newer(a, b) && Newer(b, a))
  {
    if VersionOf(a).Some? && VersionOf(b).Some? {
      var va, vb := VersionOf(a).value, VersionOf(b).value;
      LessIsStrictTotalOrder(va, vb, va);
      if VersionOf(c).Some? { LessIsStrictTotalOrder(va, vb, VersionOf(c).value); }
    } else if VersionOf(a).Some? {
      LessIsStrictTotalOrder(VersionOf(a).value, VersionOf(a).value, VersionOf(a).value);
    }
  }

  // ------------------------------------------------------------- versions as texts

  predicate Suffix(s: string) { s == "" || ((s[0] == '+' || s[0] == '-') && !IsSpace(s[|s| - 1])) }

  function Core(a: string, b: string, c: string): string { a + ['.'] + (b + ['.'] + c) }

  lemma {:induction false} StemStops(core: string, suffix: string)
    requires '+' !in core && '-' !in core && Suffix(suffix)
    ensures Stem(core + suffix) == core
  {
    if core == "" {
      assert core + suffix == suffix;
    } else {
      assert core[0] in core && (core + suffix)[1..] == core[1..] + suffix;
      StemStops(core[1..], suffix);
    }
  }

  lemma CoreIsSplit(a: string, b: string, c: string)
    requires Number(a) && Number(b) && Number(c)
    ensures Split(Core(a, b, c), '.') == [a, b, c]
  {
    Absent(a, '.');
    Absent(b, '.');
    Absent(c, '.');
    hide Split;
    SplitBetween(b, '.', c);
    SplitBetween(a, '.', b + ['.'] + c);
    assert [a] + ([b] + [c]) == [a, b, c];
  }

  lemma CoreIsPlain(a: string, b: string, c: string)
    requires Number(a) && Number(b) && Number(c)
    ensures var core := Core(a, b, c);
      '+' !in core && '-' !in core && core != "" && IsDigit(core[0]) && !IsSpace(core[|core| - 1])
  {
    assert a[0] in a && c[|c| - 1] in c;
    assert Core(a, b, c)[0] == a[0];
    assert Core(a, b, c)[|Core(a, b, c)| - 1] == c[|c| - 1];
  }

  lemma StemOfCore(core: string, suffix: string)
    requires '+' !in core && '-' !in core && core != "" && IsDigit(core[0]) && !IsSpace(core[|core| - 1]) && Suffix(suffix)
    ensures TrimmedStem(core + suffix) == core && TrimmedStem("v" + core + suffix) == core
  {
    var plain, marked := core + suffix, "v" + core + suffix;
    StemStops(core, suffix);
    assert plain[0] == core[0] && plain[|plain| - 1] == if suffix == "" then core[|core| - 1] else suffix[|suffix| - 1];
    assert marked[0] == 'v' && marked[|marked| - 1] == plain[|plain| - 1] && marked[1..] == plain;
    TrimsToItself(plain);
    TrimsToItself(marked);
    assert plain[..1][0] == core[0] && marked[..1] == "v";
  }

  predicate Component(s: string) { Number(s) && DigitsValue(s) <= MAX_INT }

  /** Three numbers, after an optional `v` and before an optional build or pre-release mark, are a version
    * of exactly these numbers, the first one first; a number of more than 64 bits is none. */
  lemma VersionOfNumbers(a: string, b: string, c: string, suffix: string)
    requires Number(a) && Number(b) && Number(c) && Suffix(suffix)
    ensures var value := if Component(a) && Component(b) && Component(c)
        then Some([DigitsValue(a), DigitsValue(b), DigitsValue(c)]) else None;
      VersionOf(Core(a, b, c) + suffix) == value && VersionOf("v" + Core(a, b, c) + suffix) == value
  {
    CoreIsPlain(a, b, c);
    StemOfCore(Core(a, b, c), suffix);
    CoreIsSplit(a, b, c);
    var plain, marked := Core(a, b, c) + suffix, "v" + Core(a, b, c) + suffix;
    hide TrimmedStem, Core, Split, Component, Suffix, VersionOf;
    VersionOfParts(plain, a, b, c);
    VersionOfParts(marked, a, b, c);
  }

  lemma ComponentIsNumber(s: string)
    requires Number(s)
    ensures IsNumber(s) <==> Component(s)
    ensures Component(s) ==> Atoi(s) == Some(DigitsValue(s))
  {
    NumberOrNothing(s);
  }

  lemma VersionOfParts(value: string, a: string, b: string, c: string)
    requires Number(a) && Number(b) && Number(c) && Split(TrimmedStem(value), '.') == [a, b, c]
    ensures VersionOf(value) ==
      if Component(a) && Component(b) && Component(c) then Some([DigitsValue(a), DigitsValue(b), DigitsValue(c)]) else None
  {
    ComponentIsNumber(a);
    ComponentIsNumber(b);
    ComponentIsNumber(c);
    var parts := Split(TrimmedStem(value), '.');
    hide TrimmedStem, Split, Component, IsNumber, Atoi, Digits, Number, DigitsValue;
    assert parts[0] == a && parts[1] == b && parts[2] == c;
    assert (forall i | 0 <= i < 3 :: IsNumber(parts[i])) <==> IsNumber(a) && IsNumber(b) && IsNumber(c);
  }

  lemma LessInWords(a: seq<int>, b: seq<int>)
    requires |a| == 3 && |b| == 3
    ensures Less(a, b) <==> a[0] < b[0] || (a[0] == b[0] && (a[1] < b[1] || (a[1] == b[1] && a[2] < b[2])))
  {
    if a[0] == b[0] && a[1] < b[1] {
      assert forall j | 0 <= j < 1 :: a[j] == b[j];
    } else if a[0] == b[0] && a[1] == b[1] && a[2] < b[2] {
      assert forall j | 0 <= j < 2 :: a[j] == b[j];
    }
  }

  /** An update goes to the greater first number, or with equal first numbers to the greater second, or with
    * equal first and second to the greater third; and only from 0.2.0 on. */
  lemma NewerByNumbers(current: string, a: seq<int>, target: string, b: seq<int>)
    requires |a| == 3 && |b| == 3 && VersionOf(current) == Some(a) && VersionOf(target) == Some(b)
    ensures Newer(current, target) <==>
      && (a[0] > 0 || a[1] >= 2)
      && (a[0] < b[0] || (a[0] == b[0] && (a[1] < b[1] || (a[1] == b[1] && a[2] < b[2]))))
  {
    LessInWords(a, b);
    LessInWords(a, MINIMUM_SELF_UPDATE);
    hide VersionOf, Less;
  }
}
