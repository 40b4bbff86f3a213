/** What the functions of `Text` do with texts that are put together from parts. */
module TextFacts {
  import opened Options
  import opened Text

  predicate Digits(s: string) { forall c | c in s :: IsDigit(c) }

  /** No character of the text is white space or one of the three separators of a field. */
  predicate Plain(s: string) {
    s != "" && forall c | c in s :: !IsSpace(c) && c != ',' && c != '/' && c != '-'
  }

  predicate Word(s: string) { s != "" && forall c | c in s :: !IsSpace(c) }

  lemma {:induction false} Absent(s: string, c: char)
    requires c !in s
    ensures Count(s, c) == 0 && Split(s, c) == [s]
  {
    if s != "" {
      Absent(s[1..], c);
      assert [s[0]] + s[1..] == s && [s[1..]][1..] == [];
    }
  }

  lemma {:induction false} CountBetween(a: string, c: char, b: string)
    ensures Count(a + [c] + b, c) == Count(a, c) + 1 + Count(b, c)
  {
    if a == "" {
      assert ("" + [c] + b)[1..] == b;
    } else {
      CountBetween(a[1..], c, b);
      assert (a + [c] + b)[1..] == a[1..] + [c] + b;
    }
  }

  lemma CutBetween(a: string, c: char, b: string)
    requires c !in a
    ensures Cut(a + [c] + b, c) == (a, b)
  {
    var s := a + [c] + b;
    var parts := Cut(s, c);
    assert s[|a|] == c && s[|parts.0|] == c;
    assert |parts.0| == |a|;
    assert parts.0 == s[..|a|] == a && parts.1 == s[|a| + 1..] == b;
  }

  lemma TrimsToItself(s: string)
    requires s != "" && !IsSpace(s[0]) && !IsSpace(s[|s| - 1])
    ensures TrimSpace(s) == s
  {
  }

  lemma OneMoreDigit(s: string, n: int, d: char) returns (longer: string)
    requires Digits(s) && IsDigit(d) && DigitsValue(s) == n
    ensures longer == s + [d] && Digits(longer)
    ensures DigitsValue(longer) == 10 * n + d as int - '0' as int
  {
    longer := s + [d];
    assert longer[..|longer| - 1] == s;
  }

  lemma ThreeMoreDigits(s: string, n: int, a: char, b: char, c: char) returns (longer: string)
    requires Digits(s) && IsDigit(a) && IsDigit(b) && IsDigit(c) && DigitsValue(s) == n
    ensures longer == s + [a, b, c] && Digits(longer)
    ensures DigitsValue(longer) == 1000 * n + 100 * (a as int) + 10 * (b as int) + c as int - 111 * ('0' as int)
  {
    longer := OneMoreDigit(s, n, a);
    longer := OneMoreDigit(longer, 10 * n + a as int - '0' as int, b);
    longer := OneMoreDigit(longer, 10 * (10 * n + a as int - '0' as int) + b as int - '0' as int, c);
  }

  lemma LargestInteger()
    ensures Digits("9223372036854775807") && DigitsValue("9223372036854775807") == MAX_INT
  {
    var s := OneMoreDigit("", 0, '9');
    s := ThreeMoreDigits(s, 9, '2', '2', '3');
    s := ThreeMoreDigits(s, 9223, '3', '7', '2');
    s := ThreeMoreDigits(s, 9223372, '0', '3', '6');
    s := ThreeMoreDigits(s, 9223372036, '8', '5', '4');
    s := ThreeMoreDigits(s, 9223372036854, '7', '7', '5');
    s := ThreeMoreDigits(s, 9223372036854775, '8', '0', '7');
    assert s == "9223372036854775807";
  }

  lemma DigitsAreANumber(s: string, n: int)
    requires s != "" && Digits(s) && DigitsValue(s) == n <= MAX_INT
    ensures Plain(s) && Atoi(s) == Some(n)
  {
    assert s[0] in s;
  }

  lemma TwoDigits(a: char, b: char)
    requires IsDigit(a) && IsDigit(b)
    ensures Digits([a, b]) && DigitsValue([a, b]) == 10 * (a as int) + b as int - 11 * ('0' as int)
  {
    var s := OneMoreDigit("", 0, a);
    s := OneMoreDigit(s, a as int - '0' as int, b);
    assert s == [a, b];
  }

  predicate Number(s: string) { s != "" && Digits(s) }

  lemma NumberOrNothing(s: string)
    requires Number(s)
    ensures Plain(s) && '/' !in s && '-' !in s && ',' !in s
    ensures Atoi(s) == if DigitsValue(s) <= MAX_INT then Some(DigitsValue(s)) else None
  {
    assert s[0] in s;
  }

  lemma FirstWord(word: string, rest: string)
    requires Word(word)
    ensures Fields(word + " " + rest) == [word] + Fields(rest)
    ensures Fields(word) == [word]
  {
    LengthOfWord(word, " " + rest);
    LengthOfWord(word, "");
    var s := word + " " + rest;
    assert s == word + (" " + rest) && word == word + "";
    assert s[0] == word[0] && word[0] in word && s[..|word|] == word && s[|word|..] == " " + rest;
    assert (" " + rest)[1..] == rest;
  }

  lemma {:induction false} LengthOfWord(word: string, rest: string)
    requires forall c | c in word :: !IsSpace(c)
    requires rest == "" || IsSpace(rest[0])
    ensures WordLength(word + rest) == |word|
  {
    if word == "" {
      assert word + rest == rest;
    } else {
      assert word[0] in word && (word + rest)[0] == word[0] && (word + rest)[1..] == word[1..] + rest;
      LengthOfWord(word[1..], rest);
    }
  }

  /** One more character in front of a text that is split. */
  function InFront(first: char, parts: seq<string>, c: char): seq<string>
    requires parts != []
  {
    if first == c then [""] + parts else [[first] + parts[0]] + parts[1..]
  }

  lemma SplitInFront(s: string, c: char)
    requires s != ""
    ensures Split(s, c) == InFront(s[0], Split(s[1..], c), c)
  {
  }

  lemma InFrontOfBoth(first: char, parts: seq<string>, more: seq<string>, c: char)
    requires parts != []
    ensures InFront(first, parts + more, c) == InFront(first, parts, c) + more
  {
    assert (parts + more)[0] == parts[0] && (parts + more)[1..] == parts[1..] + more;
  }

  lemma {:induction false} SplitBetween(x: string, c: char, y: string)
    ensures Split(x + [c] + y, c) == Split(x, c) + Split(y, c)
  {
    var s := x + [c] + y;
    SplitInFront(s, c);
    if x == "" {
      assert s[1..] == y;
    } else {
      assert s[1..] == x[1..] + [c] + y;
      SplitInFront(x, c);
      hide Split, InFront;
      SplitBetween(x[1..], c, y);
      InFrontOfBoth(x[0], Split(x[1..], c), Split(y, c), c);
    }
  }

  /** The characters that Unicode counts as white space. */
  lemma WhiteSpaceExactly(n: int)
    ensures IsSpaceCode(n) <==> n in {
      0x09, 0x0A, 0x0B, 0x0C, 0x0D, 0x20, 0x85, 0xA0, 0x1680, 0x2000, 0x2001, 0x2002, 0x2003, 0x2004, 0x2005, 0x2006, 0x2007,
      0x2008, 0x2009, 0x200A, 0x2028, 0x2029, 0x202F, 0x205F, 0x3000}
  {
  }

  /** A sign is read with a number of up to 64 bits, and nothing but digits may follow it. */
  lemma SignedNumber(s: string)
    requires Number(s)
    ensures Atoi("+" + s) == if DigitsValue(s) <= 0x7FFF_FFFF_FFFF_FFFF then Some(DigitsValue(s)) else None
    ensures Atoi("-" + s) == if DigitsValue(s) <= 0x8000_0000_0000_0000 then Some(0 - DigitsValue(s)) else None
    ensures Atoi("") == None && Atoi("+") == None && Atoi("-") == None
  {
    assert ("+" + s)[1..] == s && ("-" + s)[1..] == s;
  }

  lemma NoNumber(s: string, c: char)
    requires c in s && !IsDigit(c) && s[0] != '+' && s[0] != '-'
    ensures Atoi(s) == None
  {
  }

  lemma PrefixExactly(s: string, prefix: string)
    ensures HasPrefix(s, prefix) <==> exists rest: string :: s == prefix + rest
  {
    if HasPrefix(s, prefix) { assert s == prefix + s[|prefix|..]; }
    if rest: string :| s == prefix + rest { assert s[..|prefix|] == prefix; }
  }

  /** White space is trimmed off both ends, however much there is, and nothing else is. */
  lemma {:induction false} TrimsBetween(a: string, core: string, b: string)
    requires IsBlank(a) && IsBlank(b) && core != "" && !IsSpace(core[0]) && !IsSpace(core[|core| - 1])
    ensures TrimSpace(a + core + b) == core
    decreases |a| + |b|
  {
    if a != "" {
      assert a[0] in a && (a + core + b)[1..] == a[1..] + core + b;
      TrimsBetween(a[1..], core, b);
    } else {
      assert a + core + b == core + b && TrimLeft(core + b) == core + b;
      TrimsEnd(core, b);
    }
  }

  lemma {:induction false} TrimsEnd(core: string, b: string)
    requires IsBlank(b) && core != "" && !IsSpace(core[|core| - 1])
    ensures TrimRight(core + b) == core
  {
    if b == "" {
      assert core + b == core;
    } else {
      var s := core + b;
      assert s[|s| - 1] == b[|b| - 1] && b[|b| - 1] in b && s[..|s| - 1] == core + b[..|b| - 1];
      TrimsEnd(core, b[..|b| - 1]);
    }
  }
}
