/** Reading NUL-delimited Git output. Strings are byte strings: one character per byte. */
module GitParsers {
  import opened Options
  import T = Text

  const NUL: char := 0 as char

  function Joined(fields: seq<string>): string {
    if fields == [] then "" else fields[0] + Joined(fields[1..])
  }

  /** The length of the white-space character, in UTF-8, that the bytes start with, or 0. */
  function SpaceLength(s: string): (n: nat)
    ensures n <= |s|
  {
    if s == "" then 0
    else
      var b0 := s[0] as int;
      if b0 < 0x80 then (if T.IsSpaceCode(b0) then 1 else 0)
      else if |s| < 2 then 0
      else
        var b1 := s[1] as int;
        if b0 == 0xC2 then (if b1 == 0x85 || b1 == 0xA0 then 2 else 0)
        else if |s| < 3 || b0 < 0xE1 || b0 > 0xE3 || b1 < 0x80 || b1 >= 0xC0
          || (s[2] as int) < 0x80 || (s[2] as int) >= 0xC0 then 0
        else if T.IsSpaceCode((b0 - 0xE0) * 4096 + (b1 - 0x80) * 64 + (s[2] as int - 0x80)) then 3 else 0
  }

  /** `bytes.TrimSpace` leaves nothing. */
  predicate Blank(s: string) {
    s == "" || (SpaceLength(s) > 0 && Blank(s[SpaceLength(s)..]))
  }

  function WordLength(s: string): (n: nat)
    ensures n <= |s| && (s != "" && SpaceLength(s) == 0 ==> n > 0)
  {
    if s == "" || SpaceLength(s) > 0 then 0 else 1 + WordLength(s[1..])
  }

  /** `strings.Fields` on bytes. */
  function Words(s: string): seq<string> {
    if s == "" then []
    else if SpaceLength(s) > 0 then Words(s[SpaceLength(s)..])
    else [s[..WordLength(s)]] + Words(s[WordLength(s)..])
  }

  predicate LineEnd(c: char) { c == '\r' || c == '\n' }

  /** `bytes.Trim` of carriage returns and newlines. */
  function Trimmed(s: string): string {
    if s != "" && LineEnd(s[0]) then Trimmed(s[1..])
    else if s != "" && LineEnd(s[|s| - 1]) then Trimmed(s[..|s| - 1]) else s
  }

  predicate Hex(c: char) { '0' <= c <= '9' || 'a' <= c <= 'f' }

  predicate IsObjectID(id: string) {
    (|id| == 40 || |id| == 64) && forall i | 0 <= i < |id| :: Hex(id[i])
  }

  // Commits

  datatype Commit = Commit(sha: string, name: string, email: string, at: int, title: string, parents: seq<string>)

  type Clock = string -> Option<int>

  function CommitOf(f: seq<string>, clock: Clock): Option<Commit>
    requires |f| == 6
  {
    var sha, at, parents := Trimmed(f[0]), clock(f[3]), Words(f[5]);
    if !IsObjectID(sha) || at.None? || exists i | 0 <= i < |parents| :: !IsObjectID(parents[i]) then None
    else Some(Commit(sha, f[1], f[2], at.value, f[4], parents))
  }

  function CommitsOf(fields: seq<string>, clock: Clock): Option<seq<Commit>> {
    if Blank(Joined(fields)) then Some([])
    else if |fields| < 6 then None
    else
      var first, rest := CommitOf(fields[..6], clock), CommitsOf(fields[6..], clock);
      if first.None? || rest.None? then None else Some([first.value] + rest.value)
  }

  method ParseCommit(f: seq<string>, clock: Clock) returns (commit: Option<Commit>)
    requires |f| == 6
    ensures commit == CommitOf(f, clock)
  {
    var sha := Trimmed(f[0]);
    if !IsObjectID(sha) { return None; }
    var at := clock(f[3]);
    if at.None? { return None; }
    var parents := Words(f[5]);
    for i := 0 to |parents|
      invariant forall j | 0 <= j < i :: IsObjectID(parents[j])
    {
      if !IsObjectID(parents[i]) { return None; }
    }
    return Some(Commit(sha, f[1], f[2], at.value, f[4], parents));
  }

  lemma NextCommit(fields: seq<string>, clock: Clock)
    ensures Blank(Joined(fields)) ==> CommitsOf(fields, clock) == Some([])
    ensures !Blank(Joined(fields)) && |fields| < 6 ==> CommitsOf(fields, clock) == None
    ensures !Blank(Joined(fields)) && |fields| >= 6 ==>
      var first, rest := CommitOf(fields[..6], clock), CommitsOf(fields[6..], clock);
      CommitsOf(fields, clock) == if first.None? || rest.None? then None else Some([first.value] + rest.value)
  {
  }

  /** What has been read, and what the fields that are left stand for. */
  predicate Continues(commits: seq<Commit>, all: Option<seq<Commit>>, rest: Option<seq<Commit>>) {
    if rest.None? then all.None? else all.Some? && all.value == commits + rest.value
  }

  lemma ContinuesAfterOne(commits: seq<Commit>, all: Option<seq<Commit>>, one: Commit, later: Option<seq<Commit>>)
    requires Continues(commits, all, if later.None? then None else Some([one] + later.value))
    ensures Continues(commits + [one], all, later)
  {
    assert later.Some? ==> commits + ([one] + later.value) == commits + [one] + later.value;
  }

  method ParseCommits(output: string, clock: Clock) returns (result: Option<seq<Commit>>)
    ensures result == CommitsOf(T.Split(output, NUL), clock)
  {
    assert Blank(Joined([]));
    hide Blank, Joined, CommitOf, CommitsOf, T.Split;
    var fields := T.Split(output, NUL);
    var commits: seq<Commit> := [];
    var offset := 0;
    assert fields[0..] == fields;
    while offset < |fields|
      invariant offset <= |fields|
      invariant Continues(commits, CommitsOf(fields, clock), CommitsOf(fields[offset..], clock))
    {
      ghost var left := fields[offset..];
      NextCommit(left, clock);
      assert commits + [] == commits;
      if Blank(Joined(fields[offset..])) { return Some(commits); }
      if offset + 6 > |fields| { return None; }
      var f := fields[offset..offset + 6];
      assert left[..6] == f && left[6..] == fields[offset + 6..];
      var commit := ParseCommit(f, clock);
      if commit.None? { return None; }
      ContinuesAfterOne(commits, CommitsOf(fields, clock), commit.value, CommitsOf(left[6..], clock));
      commits := commits + [commit.value];
      offset := offset + 6;
    }
    assert fields[offset..] == [] && commits + [] == commits;
    NextCommit(fields[offset..], clock);
    return Some(commits);
  }

  /** What Git prints for one commit: six fields, each ended by NUL. */
  datatype Log = Log(sha: string, name: string, email: string, time: string, title: string, parents: seq<string>)

  function Spaced(ids: seq<string>): string {
    if ids == [] then "" else if |ids| == 1 then ids[0] else ids[0] + " " + Spaced(ids[1..])
  }

  function Ended(field: string): string { field + [NUL] }

  function PrintFields(fields: seq<string>): string {
    if fields == [] then "" else Ended(fields[0]) + PrintFields(fields[1..])
  }

  function LogFields(c: Log, prefix: string): seq<string> {
    [prefix + c.sha, c.name, c.email, c.time, c.title, Spaced(c.parents)]
  }

  function PrintLog(c: Log): string { PrintFields(LogFields(c, "")) }

  /** Commits are separated by newlines; Git also ends the last one with a newline. */
  function PrintLogs(logs: seq<Log>, newlineAtEnd: bool): string {
    if logs == [] then ""
    else if |logs| == 1 then PrintLog(logs[0]) + if newlineAtEnd then "\n" else ""
    else PrintLog(logs[0]) + "\n" + PrintLogs(logs[1..], newlineAtEnd)
  }

  predicate Printable(c: Log, clock: Clock) {
    && IsObjectID(c.sha) && NUL !in c.name && NUL !in c.email && NUL !in c.time && NUL !in c.title
    && clock(c.time).Some? && forall i | 0 <= i < |c.parents| :: IsObjectID(c.parents[i])
  }

  function Read(c: Log, clock: Clock): Commit
    requires Printable(c, clock)
  {
    Commit(c.sha, c.name, c.email, clock(c.time).value, c.title, c.parents)
  }

  function ReadAll(logs: seq<Log>, clock: Clock): seq<Commit>
    requires forall i | 0 <= i < |logs| :: Printable(logs[i], clock)
  {
    if logs == [] then [] else [Read(logs[0], clock)] + ReadAll(logs[1..], clock)
  }

  lemma {:induction false} SplitEnded(field: string, rest: string)
    requires NUL !in field
    ensures T.Split(Ended(field) + rest, NUL) == [field] + T.Split(rest, NUL)
  {
    var s := Ended(field) + rest;
    if field == "" {
      assert s[1..] == rest;
    } else {
      assert s[1..] == Ended(field[1..]) + rest;
      SplitEnded(field[1..], rest);
      var after := T.Split(rest, NUL);
      assert ([field[1..]] + after)[1..] == after && [s[0]] + field[1..] == field;
    }
  }

  /** Fields ended by NUL are split back into themselves. */
  lemma {:induction false} SplitFields(fields: seq<string>, rest: string)
    requires forall i | 0 <= i < |fields| :: NUL !in fields[i]
    ensures T.Split(PrintFields(fields) + rest, NUL) == fields + T.Split(rest, NUL)
  {
    hide T.Split, Ended;
    if fields == [] {
      assert PrintFields(fields) + rest == rest;
    } else {
      assert PrintFields(fields) + rest == Ended(fields[0]) + (PrintFields(fields[1..]) + rest);
      SplitEnded(fields[0], PrintFields(fields[1..]) + rest);
      SplitFields(fields[1..], rest);
      assert fields == [fields[0]] + fields[1..];
    }
  }

  lemma HexIsNotSpace(s: string)
    requires s != "" && Hex(s[0])
    ensures SpaceLength(s) == 0 && !LineEnd(s[0]) && s[0] != NUL && !Blank(s)
  {
  }

  lemma {:induction false} WordOfHex(id: string, rest: string)
    requires forall i | 0 <= i < |id| :: Hex(id[i])
    requires rest == "" || rest[0] == ' '
    ensures WordLength(id + rest) == |id|
  {
    if id == "" {
      assert id + rest == rest;
    } else {
      HexIsNotSpace(id + rest);
      assert (id + rest)[1..] == id[1..] + rest;
      WordOfHex(id[1..], rest);
    }
  }

  lemma {:induction false} WordsOfSpaced(ids: seq<string>)
    requires forall i | 0 <= i < |ids| :: IsObjectID(ids[i])
    ensures Words(Spaced(ids)) == ids && NUL !in Spaced(ids)
  {
    if ids != [] {
      var id, rest := ids[0], if |ids| == 1 then "" else " " + Spaced(ids[1..]);
      assert Spaced(ids) == id + rest;
      WordOfHex(id, rest);
      HexIsNotSpace(Spaced(ids));
      assert Spaced(ids)[..|id|] == id && Spaced(ids)[|id|..] == rest;
      WordsOfSpaced(ids[1..]);
      if |ids| > 1 {
        assert rest[1..] == Spaced(ids[1..]);
        assert Words(rest) == Words(Spaced(ids[1..]));
      }
      assert ids == [id] + ids[1..];
    }
  }

  lemma TrimmedHex(id: string, prefix: string)
    requires IsObjectID(id) && (prefix == "" || prefix == "\n")
    ensures Trimmed(prefix + id) == id
  {
    assert Hex(id[0]) && Hex(id[|id| - 1]);
    if prefix == "\n" {
      assert (prefix + id)[1..] == id;
    } else {
      assert prefix + id == id;
    }
  }

  lemma SplitLog(c: Log, clock: Clock, prefix: string, rest: string)
    requires Printable(c, clock) && (prefix == "" || prefix == "\n")
    ensures T.Split(prefix + PrintLog(c) + rest, NUL) == LogFields(c, prefix) + T.Split(rest, NUL)
  {
    hide T.Split, Spaced, Words;
    WordsOfSpaced(c.parents);
    var own, fields := LogFields(c, ""), LogFields(c, prefix);
    assert forall i | 0 <= i < |c.sha| :: c.sha[i] != NUL;
    assert own[1..] == fields[1..] && own[0] == c.sha;
    assert prefix + PrintLog(c) == PrintFields(fields);
    SplitFields(fields, rest);
  }

  lemma ReadsLog(c: Log, clock: Clock, prefix: string)
    requires Printable(c, clock) && (prefix == "" || prefix == "\n")
    ensures CommitOf(LogFields(c, prefix), clock) == Some(Read(c, clock))
  {
    TrimmedHex(c.sha, prefix);
    WordsOfSpaced(c.parents);
  }

  lemma NotBlankFrom(prefix: string, c: Log, fields: seq<string>)
    requires IsObjectID(c.sha) && (prefix == "" || prefix == "\n") && fields != [] && fields[0] == prefix + c.sha
    ensures !Blank(Joined(fields))
  {
    var s := Joined(fields);
    assert s == prefix + (c.sha + Joined(fields[1..]));
    HexIsNotSpace(c.sha + Joined(fields[1..]));
    if prefix == "\n" { assert s[1..] == c.sha + Joined(fields[1..]); }
  }

  /** Parsing recovers every list of commits that Git can print. */
  lemma {:induction false} CommitsRoundTrip(logs: seq<Log>, newlineAtEnd: bool, clock: Clock, prefix: string)
    requires forall i | 0 <= i < |logs| :: Printable(logs[i], clock)
    requires prefix == "" || prefix == "\n"
    ensures CommitsOf(T.Split(prefix + PrintLogs(logs, newlineAtEnd), NUL), clock)
      == Some(ReadAll(logs, clock))
    decreases |logs|
  {
    hide T.Split, Blank, Joined, LogFields, Printable, PrintLog, CommitOf, Read;
    if logs == [] {
      BlankPrefix(prefix);
      assert prefix + "" == prefix;
    } else {
      var c := logs[0];
      var next, rest := if |logs| > 1 || newlineAtEnd then "\n" else "", PrintLogs(logs[1..], newlineAtEnd);
      assert prefix + PrintLogs(logs, newlineAtEnd) == prefix + PrintLog(c) + (next + rest);
      SplitLog(c, clock, prefix, next + rest);
      CommitsRoundTrip(logs[1..], newlineAtEnd, clock, next);
      FirstCommit(c, clock, prefix, T.Split(next + rest, NUL));
    }
  }

  lemma FirstCommit(c: Log, clock: Clock, prefix: string, tail: seq<string>)
    requires Printable(c, clock) && (prefix == "" || prefix == "\n") && CommitsOf(tail, clock).Some?
    ensures CommitsOf(LogFields(c, prefix) + tail, clock) == Some([Read(c, clock)] + CommitsOf(tail, clock).value)
  {
    hide Joined, Blank, CommitOf;
    var head := LogFields(c, prefix);
    assert (head + tail)[..6] == head && (head + tail)[6..] == tail;
    NotBlankFrom(prefix, c, head + tail);
    ReadsLog(c, clock, prefix);
  }

  lemma BlankPrefix(prefix: string)
    requires prefix == "" || prefix == "\n"
    ensures Blank(Joined(T.Split(prefix, NUL)))
  {
    if prefix == "\n" {
      assert prefix[1..] == "" && T.Split("", NUL) == [""];
      assert ['\n'] + "" == "\n" && [""][1..] == [];
      assert Joined(["\n"]) == "\n" + Joined([]);
    } else {
      assert Joined([""]) == "" + Joined([]);
    }
  }

  /** Object names are 40 or 64 lower-case hexadecimal digits. */
  lemma ObjectIDExactly(id: string)
    ensures IsObjectID(id) <==> |id| in {40, 64} && forall c | c in id :: c in "0123456789abcdef"
  {
    forall c ensures Hex(c) <==> c in "0123456789abcdef" {
      HexExactly(c);
    }
    assert forall c | c in id :: exists i | 0 <= i < |id| :: id[i] == c;
  }

  lemma HexExactly(c: char)
    ensures Hex(c) <==> c in "0123456789abcdef"
  {
    var digits := "0123456789abcdef";
    if '0' <= c <= '9' { assert digits[c as int - 48] == c; }
    if 'a' <= c <= 'f' { assert digits[c as int - 97 + 10] == c; }
  }

  /** A commit is read exactly from a proper object name, a time that can be read, and proper parents. */
  lemma CommitExactly(f: seq<string>, clock: Clock)
    requires |f| == 6
    ensures CommitOf(f, clock).Some? <==>
      IsObjectID(Trimmed(f[0])) && clock(f[3]).Some? && forall id | id in Words(f[5]) :: IsObjectID(id)
    ensures CommitOf(f, clock).Some? ==>
      CommitOf(f, clock).value == Commit(Trimmed(f[0]), f[1], f[2], clock(f[3]).value, f[4], Words(f[5]))
  {
  }

  /** The bytes of a character below U+10000. */
  function Utf8(n: nat): string
    requires n < 0xD800
  {
    if n < 0x80 then [n as char]
    else if n < 0x800 then [(0xC0 + n / 64) as char, (0x80 + n % 64) as char]
    else [(0xE0 + n / 4096) as char, (0x80 + n / 64 % 64) as char, (0x80 + n % 64) as char]
  }

  /** The bytes of a white-space character are recognised as one character, whatever follows. */
  lemma SpaceIsRecognised(n: nat, rest: string)
    requires T.IsSpaceCode(n)
    ensures n < 0xD800 && SpaceLength(Utf8(n) + rest) == |Utf8(n)|
  {
    var s := Utf8(n) + rest;
    assert s[0] == Utf8(n)[0];
    if n >= 0x80 { assert s[1] == Utf8(n)[1]; }
    if n >= 0x800 {
      assert s[2] == Utf8(n)[2];
      assert n / 64 == n / 4096 * 64 + n / 64 % 64;
      assert n / 4096 * 4096 + n / 64 % 64 * 64 + n % 64 == n;
    }
  }

  /** And nothing else is. */
  lemma RecognisedIsSpace(s: string) returns (n: nat)
    requires SpaceLength(s) > 0
    ensures T.IsSpaceCode(n) && n < 0xD800 && SpaceLength(s) <= |s| && s[..SpaceLength(s)] == Utf8(n)
  {
    var b0 := s[0] as int;
    if b0 < 0x80 {
      n := b0;
    } else if b0 == 0xC2 {
      n := s[1] as int;
      assert n / 64 == 2 && n % 64 == n - 0x80;
    } else {
      var x, y, z := b0 - 0xE0, s[1] as int - 0x80, s[2] as int - 0x80;
      n := x * 4096 + y * 64 + z;
      assert n / 4096 == x && n / 64 % 64 == y && n % 64 == z;
    }
  }

  predicate LineEnds(s: string) { forall i | 0 <= i < |s| :: LineEnd(s[i]) }

  /** Line ends are taken off both ends, however many there are, and nothing else is. */
  lemma {:induction false} TrimmedBetween(a: string, core: string, b: string)
    requires LineEnds(a) && LineEnds(b) && core != "" && !LineEnd(core[0]) && !LineEnd(core[|core| - 1])
    ensures Trimmed(a + core + b) == core
    decreases |a| + |b|
  {
    var s := a + core + b;
    if a != "" {
      assert s[0] == a[0] && s[1..] == a[1..] + core + b;
      TrimmedBetween(a[1..], core, b);
    } else if b != "" {
      assert s[0] == core[0] && s[|s| - 1] == b[|b| - 1] && s[..|s| - 1] == a + core + b[..|b| - 1];
      TrimmedBetween(a, core, b[..|b| - 1]);
    } else {
      assert s == core;
    }
  }

  // Workspace changes

  datatype Change = Change(path: string, oldPath: string, status: string, staged: bool, unstaged: bool)

  /** `normalizeChangePath`: the path inside the workspace, or a refusal. */
  type Paths = string -> Option<string>

  function Status(x: char, y: char): string {
    if x == '?' && y == '?' then "untracked"
    else if x == '!' && y == '!' then "ignored"
    else if x == 'U' || y == 'U' || (x == 'A' && y == 'A') || (x == 'D' && y == 'D') then "conflicted"
    else if x == 'R' || y == 'R' then "renamed"
    else if x == 'C' || y == 'C' then "copied"
    else if x == 'D' || y == 'D' then "deleted"
    else if x == 'A' || y == 'A' then "added"
    else "modified"
  }

  predicate Marked(c: char) { c != ' ' && c != '?' && c != '!' }

  predicate TwoPaths(x: char, y: char) { x == 'R' || x == 'C' || y == 'R' || y == 'C' }

  function ChangeOf(x: char, y: char, path: string, oldPath: string): Change {
    Change(path, oldPath, Status(x, y), Marked(x), Marked(y) || (x == '?' && y == '?'))
  }

  function Kept(c: Change, rest: seq<Change>): seq<Change> { if c.status == "ignored" then rest else [c] + rest }

  predicate WellFormed(entry: string) { |entry| >= 4 && entry[2] == ' ' }

  function ChangesOf(entries: seq<string>, paths: Paths): Option<seq<Change>> {
    if entries == [] then Some([])
    else if entries[0] == "" then ChangesOf(entries[1..], paths)
    else if !WellFormed(entries[0]) then None
    else
      var x, y, path := entries[0][0], entries[0][1], paths(entries[0][3..]);
      if path.None? then None
      else if !TwoPaths(x, y) then
        var rest := ChangesOf(entries[1..], paths);
        if rest.None? then None else Some(Kept(ChangeOf(x, y, path.value, ""), rest.value))
      else if |entries| < 2 || entries[1] == "" || paths(entries[1]).None? then None
      else
        var rest := ChangesOf(entries[2..], paths);
        if rest.None? then None else Some(Kept(ChangeOf(x, y, path.value, paths(entries[1]).value), rest.value))
  }

  method WorkspaceChangeStatus(x: char, y: char) returns (status: string)
    ensures status == Status(x, y)
  {
    if x == '?' && y == '?' { return "untracked"; }
    if x == '!' && y == '!' { return "ignored"; }
    if x == 'U' || y == 'U' || (x == 'A' && y == 'A') || (x == 'D' && y == 'D') { return "conflicted"; }
    if x == 'R' || y == 'R' { return "renamed"; }
    if x == 'C' || y == 'C' { return "copied"; }
    if x == 'D' || y == 'D' { return "deleted"; }
    if x == 'A' || y == 'A' { return "added"; }
    return "modified";
  }

  function Prepended(c: Change, rest: Option<seq<Change>>): Option<seq<Change>> {
    if rest.None? then None else Some(Kept(c, rest.value))
  }

  /** One pass of the loop, read off the entries that are left. */
  lemma NextChange(entries: seq<string>, index: nat, paths: Paths)
    requires index < |entries|
    ensures var entry, all, one := entries[index], ChangesOf(entries[index..], paths), ChangesOf(entries[index + 1..], paths);
      if entry == "" then all == one
      else if !WellFormed(entry) || paths(entry[3..]).None? then all == None
      else if !TwoPaths(entry[0], entry[1]) then
        all == Prepended(ChangeOf(entry[0], entry[1], paths(entry[3..]).value, ""), one)
      else if index + 1 >= |entries| || entries[index + 1] == "" || paths(entries[index + 1]).None? then all == None
      else all == Prepended(ChangeOf(entry[0], entry[1], paths(entry[3..]).value, paths(entries[index + 1]).value),
        ChangesOf(entries[index + 2..], paths))
  {
    var left := entries[index..];
    assert left[0] == entries[index] && left[1..] == entries[index + 1..];
    assert index + 1 < |entries| ==> left[1] == entries[index + 1] && left[2..] == entries[index + 2..];
  }

  lemma KeptAppends(changes: seq<Change>, c: Change, rest: seq<Change>)
    ensures changes + Kept(c, rest) == (if c.status == "ignored" then changes else changes + [c]) + rest
  {
  }

  method ListWorkspaceChanges(output: string, paths: Paths) returns (result: Option<seq<Change>>)
    ensures result == ChangesOf(T.Split(output, NUL), paths)
  {
    assert ChangesOf([], paths) == Some([]);
    hide Status, Marked, T.Split, ChangesOf, Kept;
    var entries := T.Split(output, NUL);
    var changes: seq<Change> := [];
    var index := 0;
    assert entries[0..] == entries;
    while index < |entries|
      invariant index <= |entries|
      invariant var all, rest := ChangesOf(entries, paths), ChangesOf(entries[index..], paths);
        if rest.None? then all.None? else all.Some? && all.value == changes + rest.value
    {
      NextChange(entries, index, paths);
      var entry := entries[index];
      index := index + 1;
      if entry == "" { continue; }
      if |entry| < 4 || entry[2] != ' ' { return None; }
      var x, y := entry[0], entry[1];
      var path := paths(entry[3..]);
      if path.None? { return None; }
      var status := WorkspaceChangeStatus(x, y);
      var change := Change(path.value, "", status, Marked(x), Marked(y));
      if x == '?' && y == '?' { change := change.(unstaged := true); }
      if x == 'R' || x == 'C' || y == 'R' || y == 'C' {
        if index >= |entries| || entries[index] == "" { return None; }
        var oldPath := paths(entries[index]);
        if oldPath.None? { return None; }
        change := change.(oldPath := oldPath.value);
        index := index + 1;
      }
      ghost var later := ChangesOf(entries[index..], paths);
      if later.Some? { KeptAppends(changes, change, later.value); }
      if change.status != "ignored" { changes := changes + [change]; }
    }
    assert entries[index..] == [] && changes + [] == changes;
    return Some(changes);
  }

  /** What Git prints for one changed file: its codes, its path, and for a rename or copy its old path. */
  datatype Record = Record(x: char, y: char, path: string, oldPath: string)

  function RecordFields(r: Record): seq<string> {
    [[r.x, r.y, ' '] + r.path] + if TwoPaths(r.x, r.y) then [r.oldPath] else []
  }

  function AllFields(records: seq<Record>): seq<string> {
    if records == [] then [] else RecordFields(records[0]) + AllFields(records[1..])
  }

  predicate Shown(r: Record, paths: Paths) {
    && r.x != NUL && r.y != NUL && NUL !in r.path && r.path != "" && paths(r.path).Some?
    && (if TwoPaths(r.x, r.y) then NUL !in r.oldPath && r.oldPath != "" && paths(r.oldPath).Some? else r.oldPath == "")
  }

  function Changes(records: seq<Record>, paths: Paths): seq<Change>
    requires forall i | 0 <= i < |records| :: Shown(records[i], paths)
  {
    if records == [] then []
    else
      var r := records[0];
      assert Shown(r, paths);
      var oldPath := if TwoPaths(r.x, r.y) then paths(r.oldPath).value else "";
      Kept(ChangeOf(r.x, r.y, paths(r.path).value, oldPath), Changes(records[1..], paths))
  }

  lemma {:induction false} FieldsRead(records: seq<Record>, paths: Paths)
    requires forall i | 0 <= i < |records| :: Shown(records[i], paths)
    ensures ChangesOf(AllFields(records) + [""], paths) == Some(Changes(records, paths))
    ensures forall i | 0 <= i < |AllFields(records)| :: NUL !in AllFields(records)[i]
  {
    hide Status, Marked;
    if records == [] {
      assert [] + [""] == [""] && [""][1..] == [];
    } else {
      var r, fields := records[0], AllFields(records) + [""];
      FieldsRead(records[1..], paths);
      assert Shown(r, paths);
      assert fields == RecordFields(r) + (AllFields(records[1..]) + [""]);
      assert fields[0][3..] == r.path;
      if TwoPaths(r.x, r.y) {
        assert fields[2..] == AllFields(records[1..]) + [""];
      } else {
        assert fields[1..] == AllFields(records[1..]) + [""];
      }
    }
  }

  /** Parsing recovers every list of one-path and two-path records, each path in its own place. */
  lemma ChangesRoundTrip(records: seq<Record>, paths: Paths)
    requires forall i | 0 <= i < |records| :: Shown(records[i], paths)
    ensures ChangesOf(T.Split(PrintFields(AllFields(records)), NUL), paths) == Some(Changes(records, paths))
  {
    FieldsRead(records, paths);
    SplitFields(AllFields(records), "");
    assert PrintFields(AllFields(records)) + "" == PrintFields(AllFields(records));
    assert T.Split("", NUL) == [""];
  }

  /** Two-path records are those reported as moved, unless a conflict takes precedence. */
  lemma MovedHasTwoPaths(x: char, y: char)
    ensures Status(x, y) in ["renamed", "copied"] ==> TwoPaths(x, y)
    ensures TwoPaths(x, y) ==> Status(x, y) in ["renamed", "copied", "conflicted"]
  {
  }

  /** The statuses in the order of their precedence: two marks of its own, conflicts, moves, and then
    * deletion before addition; anything else was modified. */
  lemma StatusExactly(x: char, y: char)
    ensures var s := Status(x, y);
      var unmerged := x == 'U' || y == 'U' || (x == 'A' && y == 'A') || (x == 'D' && y == 'D');
      var known := (x == '?' && y == '?') || (x == '!' && y == '!') || unmerged;
      && (s == "untracked" <==> x == '?' && y == '?')
      && (s == "ignored" <==> x == '!' && y == '!')
      && (s == "conflicted" <==> unmerged)
      && (s == "renamed" <==> !known && 'R' in {x, y})
      && (s == "copied" <==> !known && 'C' in {x, y} && 'R' !in {x, y})
      && (s == "deleted" <==> !known && 'D' in {x, y} && {x, y} !! {'R', 'C'})
      && (s == "added" <==> !known && 'A' in {x, y} && {x, y} !! {'R', 'C', 'D'})
      && (s == "modified" <==> !known && {x, y} !! {'R', 'C', 'D', 'A'})
  {
  }

  /** What is reported for one printed record: its paths, its status, whether the index holds a change and
    * whether the working tree does; nothing is reported for an ignored file. */
  lemma RecordIsReported(r: Record, paths: Paths)
    requires Shown(r, paths)
    ensures ChangesOf(T.Split(PrintFields(RecordFields(r)), NUL), paths) ==
      Some(if r.x == '!' && r.y == '!' then []
           else [Change(paths(r.path).value,
                        if r.x in {'R', 'C'} || r.y in {'R', 'C'} then paths(r.oldPath).value else "", Status(r.x, r.y),
                        r.x !in {' ', '?', '!'}, r.y !in {' ', '?', '!'} || (r.x == '?' && r.y == '?'))])
  {
    var records := [r];
    assert records[1..] == [] && RecordFields(r) + [] == RecordFields(r);
    assert AllFields(records) == RecordFields(r);
    ChangesRoundTrip(records, paths);
    StatusExactly(r.x, r.y);
    ChangesOfOne(r, paths);
    var change := ChangeOf(r.x, r.y, paths(r.path).value, if TwoPaths(r.x, r.y) then paths(r.oldPath).value else "");
    assert [change] + [] == [change];
    hide T.Split, Status, PrintFields, AllFields, RecordFields, ChangesOf, Changes;
  }

  lemma ChangesOfOne(r: Record, paths: Paths)
    requires Shown(r, paths)
    ensures forall i | 0 <= i < |[r]| :: Shown([r][i], paths)
    ensures Changes([r], paths) ==
      Kept(ChangeOf(r.x, r.y, paths(r.path).value, if TwoPaths(r.x, r.y) then paths(r.oldPath).value else ""), [])
  {
    assert [r][1..] == [];
    hide Status, Marked;
  }
}
