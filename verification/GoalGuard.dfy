/** The repetition guard of a Gemini goal. A round's visible activity is fed to a hash as
  * length-prefixed records; the hash is taken as injective, so the model keeps the text itself. */
module GoalGuard {
  import opened Options
  import T = Text

  /** Values are byte strings. */
  datatype Activity = Activity(kind: string, value: string)

  const MESSAGE := "message"

  // What a round looks like to the user: message text is a stream of characters, however it was
  // chunked, and anything else is one whole record.
  datatype Token = Char(c: char) | Record(kind: string, value: string)

  function Chars(text: string): seq<Token> {
    seq(|text|, i requires 0 <= i < |text| => Char(text[i]))
  }

  function Tokens(round: seq<Activity>): seq<Token> {
    if round == [] then []
    else
      var last := round[|round| - 1];
      Tokens(round[..|round| - 1])
      + (if last.kind == MESSAGE then Chars(last.value) else [Record(last.kind, last.value)])
  }

  function Digit(n: nat): char
    requires n < 10
  {
    (n + 48) as char
  }

  function Decimal(n: nat): (s: string)
    ensures s != "" && ':' !in s
  {
    if n < 10 then [Digit(n)] else Decimal(n / 10) + [Digit(n % 10)]
  }

  function Encode(kind: string, value: string): string { kind + ":" + Decimal(|value|) + ":" + value + "\n" }

  function Flushed(written: string, message: string): string {
    if message == "" then written else written + Encode(MESSAGE, message)
  }

  /** The hash input and the message buffer after some activity. */
  datatype Buffer = Buffer(written: string, message: string)

  function Absorb(b: Buffer, a: Activity): Buffer {
    if a.kind == MESSAGE then b.(message := b.message + a.value)
    else Buffer(Flushed(b.written, b.message) + Encode(a.kind, a.value), "")
  }

  function Absorbed(round: seq<Activity>): Buffer {
    if round == [] then Buffer("", "")
    else Absorb(Absorbed(round[..|round| - 1]), round[|round| - 1])
  }

  function Fingerprint(round: seq<Activity>): string {
    Flushed(Absorbed(round).written, Absorbed(round).message)
  }

  /** Kinds never contain the separator. */
  predicate Plain(round: seq<Activity>) {
    forall i | 0 <= i < |round| :: ':' !in round[i].kind
  }

  // The same text, read off the tokens instead.

  function Take(b: Buffer, t: Token): Buffer {
    match t
    case Char(c) => b.(message := b.message + [c])
    case Record(kind, value) => Buffer(Flushed(b.written, b.message) + Encode(kind, value), "")
  }

  function Taken(b: Buffer, tokens: seq<Token>): Buffer {
    if tokens == [] then b else Take(Taken(b, tokens[..|tokens| - 1]), tokens[|tokens| - 1])
  }

  lemma {:induction false} TakenAppend(b: Buffer, x: seq<Token>, y: seq<Token>)
    ensures Taken(b, x + y) == Taken(Taken(b, x), y)
  {
    if y == [] {
      assert x + y == x;
    } else {
      var z := y[..|y| - 1];
      assert (x + y)[..|x + y| - 1] == x + z;
      TakenAppend(b, x, z);
    }
  }

  lemma {:induction false} TakenChars(b: Buffer, text: string)
    ensures Taken(b, Chars(text)) == b.(message := b.message + text)
  {
    if text == "" {
      assert b.message + text == b.message;
    } else {
      var rest := text[..|text| - 1];
      assert Chars(text)[..|text| - 1] == Chars(rest);
      TakenChars(b, rest);
      assert b.message + rest + [text[|text| - 1]] == b.message + text;
    }
  }

  lemma {:induction false} AbsorbedByTokens(round: seq<Activity>)
    ensures Absorbed(round) == Taken(Buffer("", ""), Tokens(round))
  {
    if round != [] {
      var rest, last := round[..|round| - 1], round[|round| - 1];
      AbsorbedByTokens(rest);
      var b := Buffer("", "");
      if last.kind == MESSAGE {
        TakenAppend(b, Tokens(rest), Chars(last.value));
        TakenChars(Absorbed(rest), last.value);
      } else {
        TakenAppend(b, Tokens(rest), [Record(last.kind, last.value)]);
      }
    }
  }

  lemma AbsorbedAppend(round: seq<Activity>, a: Activity)
    ensures Absorbed(round + [a]) == Absorb(Absorbed(round), a)
  {
    assert (round + [a])[..|round|] == round;
  }

  // Reading the text back.

  /** The records that a buffer stands for, a pending message included. */
  function Records(tokens: seq<Token>): seq<Activity> {
    if tokens == [] then []
    else Extended(Records(tokens[..|tokens| - 1]), Open(tokens[..|tokens| - 1]), tokens[|tokens| - 1])
  }

  function Extended(before: seq<Activity>, open: bool, last: Token): seq<Activity> {
    if last.Record? then before + [Activity(last.kind, last.value)]
    else if open && before != []
    then before[..|before| - 1] + [Activity(MESSAGE, before[|before| - 1].value + [last.c])]
    else before + [Activity(MESSAGE, [last.c])]
  }

  predicate Open(tokens: seq<Token>) { tokens != [] && tokens[|tokens| - 1].Char? }

  function Text(records: seq<Activity>): string {
    if records == [] then "" else Encode(records[0].kind, records[0].value) + Text(records[1..])
  }

  lemma {:induction false} TextAppend(records: seq<Activity>, a: Activity)
    ensures Text(records + [a]) == Text(records) + Encode(a.kind, a.value)
  {
    if records == [] {
      assert Text([a][1..]) == "";
    } else {
      assert (records + [a])[1..] == records[1..] + [a];
      TextAppend(records[1..], a);
    }
  }

  lemma {:induction false} TakenIsText(tokens: seq<Token>)
    ensures var b, records := Taken(Buffer("", ""), tokens), Records(tokens);
      if Open(tokens)
      then |records| > 0 && records[|records| - 1] == Activity(MESSAGE, b.message) && b.message != ""
        && b.written == Text(records[..|records| - 1])
      else b == Buffer(Text(records), "")
  {
    if tokens != [] {
      var rest, last := tokens[..|tokens| - 1], tokens[|tokens| - 1];
      TakenIsText(rest);
      var before, records := Records(rest), Records(tokens);
      if Open(rest) {
        var closed := before[..|before| - 1];
        assert before == closed + [before[|before| - 1]];
        TextAppend(closed, before[|before| - 1]);
      }
      if last.Record? {
        TextAppend(before, records[|records| - 1]);
      } else if Open(rest) {
        assert records[..|records| - 1] == before[..|before| - 1];
      } else {
        assert records[..|records| - 1] == before;
      }
    }
  }

  lemma FingerprintIsText(round: seq<Activity>)
    ensures Fingerprint(round) == Text(Records(Tokens(round)))
  {
    var tokens := Tokens(round);
    AbsorbedByTokens(round);
    TakenIsText(tokens);
    var records := Records(tokens);
    if Open(tokens) {
      assert records == records[..|records| - 1] + [records[|records| - 1]];
      TextAppend(records[..|records| - 1], records[|records| - 1]);
    }
  }

  lemma Within(a: string, x: string, c: char, i: nat)
    ensures i < |a| ==> (a + [c] + x)[i] == a[i]
  {
  }

  /** A separator that neither part contains can be split at. */
  lemma SplitAt(a: string, x: string, b: string, y: string, c: char)
    requires c !in a && c !in b && a + [c] + x == b + [c] + y
    ensures a == b && x == y
  {
    var s, t := a + [c] + x, b + [c] + y;
    assert s[|a|] == c && t[|b|] == c;
    Within(a, x, c, |b|);
    Within(b, y, c, |a|);
    assert s[..|a|] == a && t[..|b|] == b;
    assert s[|a| + 1..] == x && t[|b| + 1..] == y;
  }

  lemma {:induction false} DecimalInjective(m: nat, n: nat)
    requires Decimal(m) == Decimal(n)
    ensures m == n
  {
    var s, t := Decimal(m), Decimal(n);
    assert (m >= 10 ==> |s| >= 2) && (n >= 10 ==> |t| >= 2);
    if m >= 10 && n >= 10 {
      assert s[..|s| - 1] == Decimal(m / 10) && t[..|t| - 1] == Decimal(n / 10);
      DecimalInjective(m / 10, n / 10);
      assert Digit(m % 10) == s[|s| - 1] == t[|t| - 1] == Digit(n % 10);
    } else if m < 10 && n < 10 {
      assert Digit(m) == s[0] == t[0] == Digit(n);
    }
  }

  lemma EncodeInjective(k: string, v: string, x: string, l: string, w: string, y: string)
    requires ':' !in k && ':' !in l && Encode(k, v) + x == Encode(l, w) + y
    ensures k == l && v == w && x == y
  {
    var p, q := Decimal(|v|) + ":" + (v + "\n" + x), Decimal(|w|) + ":" + (w + "\n" + y);
    assert Encode(k, v) + x == k + [':'] + p;
    assert Encode(l, w) + y == l + [':'] + q;
    SplitAt(k, p, l, q, ':');
    SplitAt(Decimal(|v|), v + "\n" + x, Decimal(|w|), w + "\n" + y, ':');
    DecimalInjective(|v|, |w|);
    var s, t := v + "\n" + x, w + "\n" + y;
    assert s[..|v|] == v && t[..|w|] == w;
    assert s[|v| + 1..] == x && t[|w| + 1..] == y;
  }

  /** The length-prefixed encoding can be read back. */
  lemma {:induction false} TextInjective(x: seq<Activity>, y: seq<Activity>)
    requires Plain(x) && Plain(y) && Text(x) == Text(y)
    ensures x == y
  {
    if x != [] && y != [] {
      EncodeInjective(x[0].kind, x[0].value, Text(x[1..]), y[0].kind, y[0].value, Text(y[1..]));
      TextInjective(x[1..], y[1..]);
      assert x == [x[0]] + x[1..] && y == [y[0]] + y[1..];
    }
  }

  predicate Proper(tokens: seq<Token>) {
    forall i | 0 <= i < |tokens| && tokens[i].Record? :: tokens[i].kind != MESSAGE && ':' !in tokens[i].kind
  }

  lemma {:induction false} TokensAreProper(round: seq<Activity>)
    requires Plain(round)
    ensures Proper(Tokens(round))
  {
    if round != [] { TokensAreProper(round[..|round| - 1]); }
  }

  lemma TokensAppend(round: seq<Activity>, a: Activity)
    ensures Tokens(round + [a]) == Tokens(round) + (if a.kind == MESSAGE then Chars(a.value) else [Record(a.kind, a.value)])
  {
    assert (round + [a])[..|round|] == round;
  }

  lemma CharsAppend(text: string, c: char)
    ensures Chars(text + [c]) == Chars(text) + [Char(c)] && Chars([]) == []
  {
  }

  lemma ProperPrefix(tokens: seq<Token>)
    requires Proper(tokens) && tokens != []
    ensures Proper(tokens[..|tokens| - 1])
    ensures tokens[|tokens| - 1].Record? ==> tokens[|tokens| - 1].kind != MESSAGE
  {
  }

  predicate EndsInMessage(records: seq<Activity>) { records != [] && records[|records| - 1].kind == MESSAGE }

  lemma TokensOfExtended(before: seq<Activity>, open: bool, last: Token)
    requires open ==> EndsInMessage(before)
    requires last.Record? ==> last.kind != MESSAGE
    ensures Tokens(Extended(before, open, last)) == Tokens(before) + [last]
    ensures last.Char? ==> EndsInMessage(Extended(before, open, last))
  {
    hide Tokens, Chars;
    if last.Record? {
      TokensAppend(before, Activity(last.kind, last.value));
    } else if open {
      TokensGrow(before, Tokens(before), last.c);
    } else {
      CharsAppend("", last.c);
      assert "" + [last.c] == [last.c];
      TokensAppend(before, Activity(MESSAGE, [last.c]));
    }
  }

  lemma {:induction false} TokensOfRecords(tokens: seq<Token>)
    requires Proper(tokens)
    ensures Tokens(Records(tokens)) == tokens
    ensures Open(tokens) ==> EndsInMessage(Records(tokens))
  {
    if tokens == [] {
    } else {
      hide Tokens, Extended, Proper, Records, EndsInMessage;
      var rest, last := tokens[..|tokens| - 1], tokens[|tokens| - 1];
      ProperPrefix(tokens);
      TokensOfRecords(rest);
      RecordsAppend(rest, last);
      TokensOfExtended(Records(rest), Open(rest), last);
      assert tokens == rest + [last];
    }
  }

  lemma RecordsAppend(rest: seq<Token>, last: Token)
    ensures Records(rest + [last]) == Extended(Records(rest), Open(rest), last)
  {
    assert (rest + [last])[..|rest|] == rest;
  }

  lemma {:induction false} TokensGrow(before: seq<Activity>, rest: seq<Token>, c: char)
    requires before != [] && before[|before| - 1].kind == MESSAGE && Tokens(before) == rest
    ensures Tokens(before[..|before| - 1] + [Activity(MESSAGE, before[|before| - 1].value + [c])]) == rest + [Char(c)]
  {
    hide Tokens, Chars;
    var closed, text := before[..|before| - 1], before[|before| - 1].value;
    assert before == closed + [Activity(MESSAGE, text)];
    TokensAppend(closed, Activity(MESSAGE, text));
    TokensAppend(closed, Activity(MESSAGE, text + [c]));
    CharsAppend(text, c);
  }

  lemma {:induction false} RecordsArePlain(tokens: seq<Token>)
    requires Proper(tokens)
    ensures Plain(Records(tokens))
  {
    assert ':' !in MESSAGE;
    if tokens != [] { RecordsArePlain(tokens[..|tokens| - 1]); }
  }

  /** Two rounds have one fingerprint exactly when they look the same: equal records in equal order,
    * with equal message text between them, however that text was chunked. */
  lemma FingerprintMeansSameActivity(a: seq<Activity>, b: seq<Activity>)
    requires Plain(a) && Plain(b)
    ensures Fingerprint(a) == Fingerprint(b) <==> Tokens(a) == Tokens(b)
  {
    FingerprintIsText(a);
    FingerprintIsText(b);
    TokensAreProper(a);
    TokensAreProper(b);
    TokensOfRecords(Tokens(a));
    TokensOfRecords(Tokens(b));
    if Fingerprint(a) == Fingerprint(b) {
      RecordsArePlain(Tokens(a));
      RecordsArePlain(Tokens(b));
      TextInjective(Records(Tokens(a)), Records(Tokens(b)));
    }
  }

  /** How many of the last items are equal to the last one, without a gap. */
  function Streak(items: seq<string>): nat {
    var n := |items|;
    if n == 0 then 0 else if n > 1 && items[n - 1] == items[n - 2] then Streak(items[..n - 1]) + 1 else 1
  }

  lemma StreakAppend(items: seq<string>, item: string)
    ensures Streak(items + [item]) ==
      if items != [] && items[|items| - 1] == item then Streak(items) + 1 else 1
  {
    assert (items + [item])[..|items|] == items;
  }

  predicate LastEqual<T(==)>(items: seq<T>, n: nat) {
    n <= |items| && forall i | |items| - n <= i < |items| :: items[i] == items[|items| - 1]
  }

  lemma {:induction false} StreakCountsLastEqual(items: seq<string>, n: nat)
    requires n > 0
    ensures Streak(items) >= n <==> LastEqual(items, n)
  {
    assert |items| > 1 && n > 1 && LastEqual(items, n) ==> items[|items| - 2] == items[|items| - 1];
    if |items| > 1 && items[|items| - 1] == items[|items| - 2] {
      var rest := items[..|items| - 1];
      if n > 1 { StreakCountsLastEqual(rest, n - 1); }
      assert LastEqual(items, n) ==> n == 1 || LastEqual(rest, n - 1);
      assert n > 1 && LastEqual(rest, n - 1) ==> LastEqual(items, n);
    }
  }

  const ROUND_LIMIT := 3
  const TOOL_LIMIT := 8

  predicate LastThreeSame(rounds: seq<seq<Activity>>) {
    var n := |rounds|;
    n >= 3 && Tokens(rounds[n - 1]) == Tokens(rounds[n - 2]) && Tokens(rounds[n - 2]) == Tokens(rounds[n - 3])
  }

  function Fingerprints(rounds: seq<seq<Activity>>): seq<string> {
    seq(|rounds|, i requires 0 <= i < |rounds| => Fingerprint(rounds[i]))
  }

  /** Three equal fingerprints in a row are three rounds that look the same. */
  lemma ThreeInARow(rounds: seq<seq<Activity>>)
    requires forall i | 0 <= i < |rounds| :: Plain(rounds[i])
    ensures Streak(Fingerprints(rounds)) >= ROUND_LIMIT <==> LastThreeSame(rounds)
  {
    hide Tokens, Fingerprint, Plain, Streak;
    var n, prints := |rounds|, Fingerprints(rounds);
    StreakCountsLastEqual(prints, ROUND_LIMIT);
    if n >= 3 {
      FingerprintMeansSameActivity(rounds[n - 1], rounds[n - 2]);
      FingerprintMeansSameActivity(rounds[n - 2], rounds[n - 3]);
      assert LastEqual(prints, 3) <==> prints[n - 1] == prints[n - 2] && prints[n - 2] == prints[n - 3];
    }
  }

  predicate Contains(s: string, part: string) {
    exists i | 0 <= i <= |s| :: T.HasPrefix(s[i..], part)
  }

  /** Containing means standing between two other texts. */
  lemma ContainsExactly(s: string, part: string)
    ensures Contains(s, part) <==> exists a: string, b: string :: s == a + part + b
  {
    if i :| 0 <= i <= |s| && T.HasPrefix(s[i..], part) {
      assert s == s[..i] + part + s[i + |part|..];
    }
    if a: string, b: string :| s == a + part + b {
      assert s[|a|..] == part + b && s[|a|..][..|part|] == part;
      assert T.HasPrefix(s[|a|..], part);
    }
  }

  /** Questions and image reads may repeat. */
  predicate MayRepeat(input: string) { Contains(input, "wio_ask_user(") || Contains(input, "wio_read_images(") }

  /** A call may repeat exactly if one of the two names, with its opening bracket, stands in its text. */
  lemma MayRepeatExactly(input: string)
    ensures MayRepeat(input) <==>
      exists a: string, b: string :: input == a + "wio_ask_user(" + b || input == a + "wio_read_images(" + b
  {
    ContainsExactly(input, "wio_ask_user(");
    ContainsExactly(input, "wio_read_images(");
    hide Contains;
  }

  /** One tool call with its result. Input and output are JSON text cut out of one line of the
    * protocol or printed by an encoder, so neither holds a line break; the title may. */
  datatype Call = Call(title: string, input: string, status: string, output: string)

  predicate OneLine(s: string) { '\n' !in s }

  predicate Received(c: Call) { OneLine(c.input) && OneLine(c.status) && OneLine(c.output) }

  function Started(title: string, input: string): string { title + "\n" + input }

  function CallText(started: string, status: string, output: string): string {
    started + "\n" + status + "\n" + output
  }

  function TextOf(c: Call): string { CallText(Started(c.title, c.input), c.status, c.output) }

  function Texts(calls: seq<Call>): seq<string> {
    seq(|calls|, i requires 0 <= i < |calls| => TextOf(calls[i]))
  }

  /** A separator that neither end contains can be split at, from the back. */
  lemma SplitAtLast(a: string, x: string, b: string, y: string, c: char)
    requires c !in x && c !in y && a + [c] + x == b + [c] + y
    ensures a == b && x == y
  {
    var s, t := a + [c] + x, b + [c] + y;
    assert s[|a|] == c && t[|b|] == c;
    After(a, x, c, |b|);
    After(b, y, c, |a|);
    assert s[..|a|] == a && t[..|b|] == b;
    assert s[|a| + 1..] == x && t[|b| + 1..] == y;
  }

  lemma After(a: string, x: string, c: char, i: nat)
    ensures |a| < i < |a + [c] + x| ==> (a + [c] + x)[i] in x
  {
  }

  /** Calls are joined without lengths, and still nothing is lost: equal texts are equal calls. */
  lemma TextMeansSameCall(a: Call, b: Call)
    requires Received(a) && Received(b)
    ensures TextOf(a) == TextOf(b) <==> a == b
  {
    if TextOf(a) == TextOf(b) {
      var s, t := Started(a.title, a.input), Started(b.title, b.input);
      assert TextOf(a) == s + "\n" + a.status + ['\n'] + a.output;
      assert TextOf(b) == t + "\n" + b.status + ['\n'] + b.output;
      SplitAtLast(s + "\n" + a.status, a.output, t + "\n" + b.status, b.output, '\n');
      assert s + "\n" + a.status == s + ['\n'] + a.status && t + "\n" + b.status == t + ['\n'] + b.status;
      SplitAtLast(s, a.status, t, b.status, '\n');
      assert s == a.title + ['\n'] + a.input && t == b.title + ['\n'] + b.input;
      SplitAtLast(a.title, a.input, b.title, b.input, '\n');
    }
  }

  /** Counting equal texts counts equal calls. */
  lemma CallsInARow(calls: seq<Call>, n: nat)
    requires n > 0 && forall i | 0 <= i < |calls| :: Received(calls[i])
    ensures Streak(Texts(calls)) >= n <==> LastEqual(calls, n)
  {
    hide TextOf, Streak, Received;
    StreakCountsLastEqual(Texts(calls), n);
    if n <= |calls| {
      var texts, last := Texts(calls), |calls| - 1;
      forall i | 0 <= i < |calls| ensures texts[i] == texts[last] <==> calls[i] == calls[last] {
        TextMeansSameCall(calls[i], calls[last]);
      }
      if LastEqual(texts, n) {
        assert forall i | |calls| - n <= i < |calls| :: texts[i] == texts[last];
      }
      if LastEqual(calls, n) {
        assert forall i | |calls| - n <= i < |calls| :: calls[i] == calls[last];
      }
    }
  }

  /** One goal run. The last four fields are history: the activity of this round, the rounds that were
    * compared, the title and input of the tools that are running, and the calls that were compared. */
  class Goal {
    var report: string
    var guarded: bool
    var round: string
    var message: string
    var lastRound: Option<string>
    var repeatedRounds: nat
    var lastTool: Option<string>
    var repeatedTools: nat
    var tools: map<string, string>
    ghost var current: seq<Activity>
    ghost var rounds: seq<seq<Activity>>
    ghost var started: map<string, (string, string)>
    ghost var calls: seq<Call>

    ghost predicate Valid()
      reads this
    {
      CountsValid() && ToolsValid() && RoundValid()
    }

    ghost predicate RoundValid()
      reads this`round, this`message, this`current
    {
      Plain(current) && Buffer(round, message) == Absorbed(current)
    }

    ghost predicate ToolsValid()
      reads this`tools, this`started, this`calls, this`lastTool, this`repeatedTools
    {
      StartedValid() && CallsValid()
    }

    ghost predicate StartedValid()
      reads this`tools, this`started
    {
      && started.Keys == tools.Keys
      && (forall id | id in tools :: tools[id] == Started(started[id].0, started[id].1) && OneLine(started[id].1))
    }

    ghost predicate CallsValid()
      reads this`calls, this`lastTool, this`repeatedTools
    {
      && (forall i | 0 <= i < |calls| :: Received(calls[i]))
      && repeatedTools == Streak(Texts(calls))
      && lastTool == (if calls == [] then None else Some(TextOf(calls[|calls| - 1])))
    }

    /** The counter and the fingerprint are those of the compared rounds. */
    ghost predicate CountsValid()
      reads this`rounds, this`lastRound, this`repeatedRounds
    {
      && (forall i | 0 <= i < |rounds| :: Plain(rounds[i]))
      && repeatedRounds == Streak(Fingerprints(rounds))
      && lastRound == (if rounds == [] then None else Some(Fingerprint(rounds[|rounds| - 1])))
    }

    constructor ()
      ensures Valid() && report == "" && !guarded && rounds == [] && current == [] && calls == []
    {
      report, guarded, round, message := "", false, "", "";
      lastRound, repeatedRounds, lastTool, repeatedTools, tools := None, 0, None, 0, map[];
      current, rounds, started, calls := [], [], map[], [];
    }

    method FlushMessage()
      modifies this`round, this`message
      ensures round == Flushed(old(round), old(message)) && message == ""
    {
      if message != "" {
        round := round + Encode(MESSAGE, message);
        message := "";
      }
    }

    method RecordActivity(kind: string, value: string)
      requires Valid() && ':' !in kind
      modifies this`round, this`message, this`current
      ensures Valid() && current == old(current) + [Activity(kind, value)]
    {
      hide Streak, Fingerprint, Encode, Absorbed, Fingerprints;
      AbsorbedAppend(current, Activity(kind, value));
      current := current + [Activity(kind, value)];
      if kind == MESSAGE {
        message := message + value;
        return;
      }
      FlushMessage();
      round := round + Encode(kind, value);
    }

    /** Stops the goal exactly when the last three compared rounds look the same. */
    method FinishRound() returns (stop: bool)
      requires Valid()
      modifies this
      ensures Valid()
      ensures old(report) != "" || old(guarded) ==> stop == guarded == old(guarded) && rounds == old(rounds)
      ensures old(report) == "" && !old(guarded) ==>
        rounds == old(rounds) + [old(current)] && current == [] && stop == guarded == LastThreeSame(rounds)
    {
      hide ToolsValid, CountsValid, RoundValid, LastThreeSame, Plain, Fingerprint;
      if report != "" || guarded { return guarded; }
      var fingerprint := CloseRound();
      stop := CompareRound(fingerprint, old(current));
      guarded := stop;
    }

    method CloseRound() returns (fingerprint: string)
      requires RoundValid()
      modifies this`round, this`message, this`current
      ensures RoundValid() && current == [] && Plain(old(current)) && fingerprint == Fingerprint(old(current))
    {
      FlushMessage();
      fingerprint := round;
      round := "";
      current := [];
    }

    method CompareRound(fingerprint: string, ghost finished: seq<Activity>) returns (stop: bool)
      requires CountsValid() && Plain(finished) && fingerprint == Fingerprint(finished)
      modifies this`lastRound, this`repeatedRounds, this`rounds
      ensures CountsValid() && rounds == old(rounds) + [finished] && stop == LastThreeSame(rounds)
    {
      hide Streak, LastThreeSame, Fingerprint, Plain;
      if lastRound == Some(fingerprint) {
        repeatedRounds := repeatedRounds + 1;
      } else {
        lastRound, repeatedRounds := Some(fingerprint), 1;
      }
      rounds := rounds + [finished];
      StreakAppend(Fingerprints(old(rounds)), fingerprint);
      assert Fingerprints(rounds) == Fingerprints(old(rounds)) + [fingerprint];
      ThreeInARow(rounds);
      return repeatedRounds >= ROUND_LIMIT;
    }

    method ToolStarted(id: string, title: string, input: string)
      requires Valid() && OneLine(input)
      modifies this`tools, this`started
      ensures Valid() && tools == old(tools)[id := Started(title, input)] && started == old(started)[id := (title, input)]
    {
      tools := tools[id := title + "\n" + input];
      started := started[id := (title, input)];
    }

    /** Stops the goal exactly when the last eight compared calls are one and the same call. */
    method ToolFinished(id: string, status: string, output: string) returns (stop: bool)
      requires Valid() && OneLine(status) && OneLine(output)
      modifies this`tools, this`started, this`lastTool, this`repeatedTools, this`calls, this`guarded
      ensures Valid() && tools == old(tools) - {id} && started == old(started) - {id}
      ensures id !in old(tools) || MayRepeat(old(tools)[id]) ==> !stop && calls == old(calls)
      ensures id in old(tools) && !MayRepeat(old(tools)[id]) ==>
        calls == old(calls) + [Call(old(started)[id].0, old(started)[id].1, status, output)]
        && stop == LastEqual(calls, TOOL_LIMIT)
      ensures guarded == (old(guarded) || stop)
    {
      hide CountsValid, CallsValid, RoundValid, LastEqual, MayRepeat, CallText;
      if id !in tools {
        assert tools == tools - {id} && started == started - {id};
        return false;
      }
      var input := tools[id];
      ghost var call := Call(started[id].0, started[id].1, status, output);
      tools, started := tools - {id}, started - {id};
      if MayRepeat(input) { return false; }
      stop := CompareCall(CallText(input, status, output), call);
      if stop { guarded := true; }
    }

    method CompareCall(fingerprint: string, ghost call: Call) returns (stop: bool)
      requires CallsValid() && Received(call) && fingerprint == TextOf(call)
      modifies this`lastTool, this`repeatedTools, this`calls
      ensures CallsValid() && calls == old(calls) + [call] && stop == LastEqual(calls, TOOL_LIMIT)
    {
      hide Streak, LastEqual, TextOf, Received;
      if lastTool == Some(fingerprint) {
        repeatedTools := repeatedTools + 1;
      } else {
        lastTool, repeatedTools := Some(fingerprint), 1;
      }
      calls := calls + [call];
      StreakAppend(Texts(old(calls)), fingerprint);
      assert Texts(calls) == Texts(old(calls)) + [fingerprint];
      CallsInARow(calls, TOOL_LIMIT);
      return repeatedTools >= TOOL_LIMIT;
    }
  }

  /** How a prompt of the continuation loop ends; `reported` includes a guard that fired. */
  datatype Prompt = Failed | Stalled | Stopped | EndTurn(reported: bool, emitted: bool)

  predicate LastRound(p: Prompt) { p != EndTurn(false, true) }

  function RoundLimit(maxContinuations: int): nat { if maxContinuations > 0 then maxContinuations + 1 else 1 }

  /** The loop sends prompts until one ends it or the limit is reached, and never one more. */
  method Continue(prompts: nat -> Prompt, initial: int, maxContinuations: int) returns (rounds: nat, limited: bool)
    ensures 1 <= rounds && (rounds == 1 || rounds <= maxContinuations + 1)
    ensures forall n: nat | n < rounds - 1 :: prompts(n).EndTurn? && !prompts(n).reported && prompts(n).emitted
    ensures limited <==> (prompts(rounds - 1).EndTurn? && !prompts(rounds - 1).reported && rounds > maxContinuations)
    ensures !limited ==> !prompts(rounds - 1).EndTurn? || prompts(rounds - 1).reported || !prompts(rounds - 1).emitted
  {
    rounds, limited := 0, false;
    var continuations := initial;
    while true
      invariant rounds < RoundLimit(maxContinuations) && continuations == initial + rounds && !limited
      invariant forall n: nat | n < rounds :: !LastRound(prompts(n))
      decreases RoundLimit(maxContinuations) - rounds
    {
      var p := prompts(rounds);
      rounds := rounds + 1;
      if !p.EndTurn? { return; }
      var report := p.reported;
      if !report && continuations - initial >= maxContinuations {
        report, limited := true, true;
      }
      if report { return; }
      continuations := continuations + 1;
      if !p.emitted { return; }
    }
  }
}
