/** Where a Claude session may be resumed to rewrite one of its messages. */
module RewriteBoundary {
  import opened Options

  datatype Block = TextBlock(text: string) | Image | OtherBlock
  datatype Content = Text(text: string) | Blocks(blocks: seq<Block>) | Unreadable

  datatype Message = Message(kind: string, uuid: string, parent: string, timestamp: string, sidechain: bool,
    role: string, content: Content, stopReason: string)

  datatype Target = Target(messageID: string, prompt: string, startedAt: string, before: string)

  /** A transcript line that is not JSON has no message. */
  type Line = Option<Message>

  /** `time.Parse` with nanoseconds. */
  type Clock = string -> Option<int>

  function Join(parts: seq<string>): string {
    if parts == [] then "" else if |parts| == 1 then parts[0] else Join(parts[..|parts| - 1]) + "\n" + parts[|parts| - 1]
  }

  predicate Showable(blocks: seq<Block>) { forall i | 0 <= i < |blocks| :: !blocks[i].OtherBlock? }

  function Texts(blocks: seq<Block>): seq<string> {
    if blocks == [] then []
    else
      var last := blocks[|blocks| - 1];
      Texts(blocks[..|blocks| - 1]) + if last.TextBlock? then [last.text] else []
  }

  /** The text of a message that a user typed; tool results and side chains are not prompts. */
  function Prompt(m: Message): Option<string> {
    if m.kind != "user" || m.sidechain || m.role != "user" then None
    else match m.content
      case Text(text) => Some(text)
      case Blocks(blocks) => if Showable(blocks) then Some(Join(Texts(blocks))) else None
      case Unreadable => None
  }

  method UserPrompt(m: Message) returns (text: string, ok: bool)
    ensures (if ok then Some(text) else None) == Prompt(m)
  {
    if m.kind != "user" || m.sidechain || m.role != "user" { return "", false; }
    match m.content {
      case Text(plain) => return plain, true;
      case Unreadable => return "", false;
      case Blocks(blocks) =>
        var parts := [];
        for i := 0 to |blocks|
          invariant parts == Texts(blocks[..i]) && Showable(blocks[..i])
        {
          assert blocks[..i + 1][..i] == blocks[..i];
          match blocks[i] {
            case TextBlock(part) => parts := parts + [part];
            case Image =>
            case OtherBlock =>
              assert blocks[i].OtherBlock?;
              return "", false;
          }
        }
        assert blocks[..|blocks|] == blocks;
        return Join(parts), true;
    }
  }

  predicate Kept(line: Line) { line.Some? && line.value.uuid != "" && !line.value.sidechain }

  /** An older message of the saved turn interval with exactly the prompt. */
  predicate Candidate(line: Line, target: Target, clock: Clock) {
    && Kept(line) && Prompt(line.value) == Some(target.prompt)
    && clock(target.startedAt).Some? && clock(line.value.timestamp).Some?
    && clock(line.value.timestamp).value >= clock(target.startedAt).value
    && (target.before == ""
        || (clock(target.before).Some? && clock(line.value.timestamp).value < clock(target.before).value))
  }

  /** The kept messages by ID; a later line with the same ID wins. */
  function ById(lines: seq<Line>): map<string, Message> {
    if lines == [] then map[]
    else
      var before, last := ById(lines[..|lines| - 1]), lines[|lines| - 1];
      if Kept(last) then before[last.value.uuid := last.value] else before
  }

  function Candidates(lines: seq<Line>, target: Target, clock: Clock): seq<Message> {
    if lines == [] then []
    else
      var before, last := Candidates(lines[..|lines| - 1], target, clock), lines[|lines| - 1];
      if Candidate(last, target, clock) then before + [last.value] else before
  }

  /** The message with the ID, or without one the only candidate. */
  function Located(lines: seq<Line>, target: Target, clock: Clock): Option<Message> {
    var byID, candidates := ById(lines), Candidates(lines, target, clock);
    if target.messageID in byID then Some(byID[target.messageID])
    else if |candidates| == 1 then Some(candidates[0]) else None
  }

  /** A chain of parents inside the transcript, from `start` to a root, without repetition. */
  predicate ReachesRoot(byID: map<string, Message>, start: string, chain: seq<string>) {
    && chain != [] && chain[0] == start
    && (forall i | 0 <= i < |chain| :: chain[i] in byID)
    && (forall i | 0 <= i < |chain| - 1 :: byID[chain[i]].parent == chain[i + 1])
    && byID[chain[|chain| - 1]].parent == ""
    && (forall i, j | 0 <= i < j < |chain| :: chain[i] != chain[j])
  }

  ghost predicate SafeParent(byID: map<string, Message>, m: Message) {
    && m.parent in byID
    && byID[m.parent].kind == "assistant" && byID[m.parent].stopReason != "tool_use"
    && exists chain :: ReachesRoot(byID, m.parent, chain) && m.uuid !in chain
  }

  ghost function Boundary(lines: seq<Line>, target: Target, clock: Clock): Option<string> {
    var m := Located(lines, target, clock);
    if m.None? || Prompt(m.value).None? then None
    else if m.value.parent == "" then Some("")
    else if SafeParent(ById(lines), m.value) then Some(m.value.parent) else None
  }

  lemma {:induction false} ByIdIsLastLine(lines: seq<Line>, id: string)
    ensures id in ById(lines) <==> exists i | 0 <= i < |lines| :: Kept(lines[i]) && lines[i].value.uuid == id
    ensures id in ById(lines) ==> exists i | 0 <= i < |lines| :: (lines[i] == Some(ById(lines)[id]) && Kept(lines[i])
      && lines[i].value.uuid == id
      && forall j | i < j < |lines| :: !(Kept(lines[j]) && lines[j].value.uuid == id))
  {
    if lines != [] {
      var rest, last := lines[..|lines| - 1], lines[|lines| - 1];
      ByIdIsLastLine(rest, id);
      assert last == lines[|lines| - 1];
      assert forall i | 0 <= i < |rest| :: rest[i] == lines[i];
    }
  }

  lemma {:induction false} NoCandidates(lines: seq<Line>, target: Target, clock: Clock)
    ensures Candidates(lines, target, clock) == [] <==> forall i | 0 <= i < |lines| :: !Candidate(lines[i], target, clock)
  {
    hide Candidate;
    if lines != [] {
      var rest := lines[..|lines| - 1];
      NoCandidates(rest, target, clock);
      assert forall i | 0 <= i < |rest| :: rest[i] == lines[i];
    }
  }

  /** The fallback names the one line of the transcript that fits. */
  lemma {:induction false} OnlyCandidate(lines: seq<Line>, target: Target, clock: Clock) returns (i: nat)
    requires |Candidates(lines, target, clock)| == 1
    ensures i < |lines| && lines[i] == Some(Candidates(lines, target, clock)[0]) && Candidate(lines[i], target, clock)
    ensures forall j | 0 <= j < |lines| && j != i :: !Candidate(lines[j], target, clock)
  {
    var rest := lines[..|lines| - 1];
    assert forall j | 0 <= j < |rest| :: rest[j] == lines[j];
    assert Candidate(lines[|lines| - 1], target, clock) ==> lines[|lines| - 1].Some?;
    hide Candidate;
    if Candidate(lines[|lines| - 1], target, clock) {
      i := |lines| - 1;
      NoCandidates(rest, target, clock);
    } else {
      i := OnlyCandidate(rest, target, clock);
    }
  }

  /** The messages from `start` up to, and not including, `at`. */
  predicate Walked(byID: map<string, Message>, start: string, walked: seq<string>, at: string) {
    && at in byID && (walked + [at])[0] == start
    && (forall i | 0 <= i < |walked| :: walked[i] in byID)
    && (forall i | 0 <= i < |walked| :: byID[walked[i]].parent == (walked + [at])[i + 1])
    && (forall i | 0 <= i < |walked| :: byID[walked[i]].parent != "")
    && (forall i, j | 0 <= i < j < |walked| :: walked[i] != walked[j])
  }

  /** Parents are unique, so a walk follows every chain to a root. */
  lemma {:induction false} WalkFollowsChain(byID: map<string, Message>, start: string, walked: seq<string>, at: string,
      chain: seq<string>, i: nat)
    requires Walked(byID, start, walked, at) && ReachesRoot(byID, start, chain) && i <= |walked|
    ensures i < |chain| && chain[i] == (walked + [at])[i]
  {
    if i > 0 {
      WalkFollowsChain(byID, start, walked, at, chain, i - 1);
      assert byID[chain[i - 1]].parent != "";
    }
  }

  lemma RepeatedMeansNoChain(byID: map<string, Message>, m: Message, walked: seq<string>, at: string)
    requires Walked(byID, m.parent, walked, at) && (at == m.uuid || at in walked)
    ensures forall chain | ReachesRoot(byID, m.parent, chain) :: m.uuid in chain
  {
    forall chain | ReachesRoot(byID, m.parent, chain) ensures m.uuid in chain {
      WalkFollowsChain(byID, m.parent, walked, at, chain, |walked|);
      if at != m.uuid {
        var i :| 0 <= i < |walked| && walked[i] == at;
        WalkFollowsChain(byID, m.parent, walked, at, chain, i);
      }
    }
  }

  lemma ChainGoesOn(byID: map<string, Message>, start: string, walked: seq<string>, at: string, chain: seq<string>)
    requires Walked(byID, start, walked, at) && ReachesRoot(byID, start, chain) && byID[at].parent != ""
    ensures byID[at].parent in byID
  {
    WalkFollowsChain(byID, start, walked, at, chain, |walked|);
    assert |walked| < |chain| - 1;
    assert chain[|walked| + 1] in byID;
  }

  lemma MissingMeansNoChain(byID: map<string, Message>, start: string, walked: seq<string>, at: string)
    requires Walked(byID, start, walked, at) && byID[at].parent != "" && byID[at].parent !in byID
    ensures forall chain :: !ReachesRoot(byID, start, chain)
  {
    forall chain ensures !ReachesRoot(byID, start, chain) {
      if ReachesRoot(byID, start, chain) { ChainGoesOn(byID, start, walked, at, chain); }
    }
  }

  lemma RootMeansChain(byID: map<string, Message>, start: string, walked: seq<string>, at: string)
    requires Walked(byID, start, walked, at) && at !in walked && byID[at].parent == ""
    ensures ReachesRoot(byID, start, walked + [at])
  {
  }

  /** Walks the parents, refusing to meet a message twice; it ends on any transcript. */
  method WalksToRoot(byID: map<string, Message>, m: Message) returns (ok: bool)
    requires forall id | id in byID :: id != "" && byID[id].uuid == id
    requires m.parent in byID
    ensures ok <==> exists chain :: ReachesRoot(byID, m.parent, chain) && m.uuid !in chain
  {
    hide ReachesRoot;
    var seen, p := {m.uuid}, byID[m.parent];
    ghost var walked: seq<string> := [];
    while p.uuid != ""
      invariant p.uuid in byID && byID[p.uuid] == p
      invariant Walked(byID, m.parent, walked, p.uuid) && m.uuid !in walked
      invariant forall id :: id in seen <==> id == m.uuid || id in walked
      decreases byID.Keys - seen
    {
      if p.uuid in seen {
        RepeatedMeansNoChain(byID, m, walked, p.uuid);
        return false;
      }
      seen := seen + {p.uuid};
      if p.parent == "" {
        RootMeansChain(byID, m.parent, walked, p.uuid);
        return true;
      }
      if p.parent !in byID {
        MissingMeansNoChain(byID, m.parent, walked, p.uuid);
        return false;
      }
      walked := walked + [p.uuid];
      p := byID[p.parent];
    }
  }

  lemma {:induction false} IdsAreOwn(lines: seq<Line>)
    ensures forall id | id in ById(lines) :: id != "" && ById(lines)[id].uuid == id && !ById(lines)[id].sidechain
  {
    if lines != [] { IdsAreOwn(lines[..|lines| - 1]); }
  }

  /** The whole search. An empty result restarts the session; a failure leaves the history alone. */
  method Find(lines: seq<Line>, readError: bool, cancelled: nat -> bool, target: Target, clock: Clock)
    returns (boundary: Option<string>)
    ensures boundary == if readError || exists i: nat | i < |lines| :: (cancelled(i) || lines[i].None?)
      then None else Boundary(lines, target, clock)
  {
    var byID: map<string, Message>, candidates: seq<Message> := map[], [];
    for i := 0 to |lines|
      invariant forall j: nat | j < i :: !cancelled(j) && lines[j].Some?
      invariant byID == ById(lines[..i]) && candidates == Candidates(lines[..i], target, clock)
    {
      assert lines[..i + 1][..i] == lines[..i];
      if cancelled(i) { return None; }
      if lines[i].None? { return None; }
      var m := lines[i].value;
      if m.uuid == "" || m.sidechain { continue; }
      byID := byID[m.uuid := m];
      var text, isPrompt := UserPrompt(m);
      var start, at, before := clock(target.startedAt), clock(m.timestamp), clock(target.before);
      if isPrompt && text == target.prompt && start.Some? && at.Some? && at.value >= start.value
         && (target.before == "" || (before.Some? && at.value < before.value)) {
        candidates := candidates + [m];
      }
    }
    assert lines[..|lines|] == lines;
    if readError { return None; }
    boundary := Choose(lines, byID, candidates, target, clock);
  }

  method Choose(ghost lines: seq<Line>, byID: map<string, Message>, candidates: seq<Message>, target: Target,
      ghost clock: Clock)
    returns (boundary: Option<string>)
    requires byID == ById(lines) && candidates == Candidates(lines, target, clock)
    ensures boundary == Boundary(lines, target, clock)
  {
    IdsAreOwn(lines);
    hide ById, Candidates, ReachesRoot;
    var m;
    if target.messageID in byID {
      m := byID[target.messageID];
    } else {
      if |candidates| != 1 { return None; }
      m := candidates[0];
    }
    var text, ok := UserPrompt(m);
    if !ok { return None; }
    if m.parent == "" { return Some(""); }
    if m.parent !in byID { return None; }
    var parent := byID[m.parent];
    if parent.kind != "assistant" || parent.sidechain || parent.stopReason == "tool_use" { return None; }
    var safe := WalksToRoot(byID, m);
    if !safe { return None; }
    return Some(parent.uuid);
  }

  /** What a resume point promises: it is the located prompt's own parent, an assistant message that did
    * not stop for a tool, and the history before it is complete, unbranched and without the edited one. */
  lemma ResumePointIsSafe(lines: seq<Line>, target: Target, clock: Clock)
    requires Boundary(lines, target, clock).Some? && Boundary(lines, target, clock).value != ""
    ensures var byID, m, at := ById(lines), Located(lines, target, clock), Boundary(lines, target, clock).value;
      && m.Some? && Prompt(m.value).Some? && m.value.parent == at
      && at in byID && byID[at].uuid == at && byID[at].kind == "assistant" && byID[at].stopReason != "tool_use"
      && (exists chain :: ReachesRoot(byID, at, chain) && m.value.uuid !in chain)
      && (target.messageID in byID || exists i | 0 <= i < |lines| :: (lines[i] == m && Candidate(lines[i], target, clock)
            && forall j | 0 <= j < |lines| && j != i :: !Candidate(lines[j], target, clock)))
  {
    IdsAreOwn(lines);
    if target.messageID !in ById(lines) {
      var i := OnlyCandidate(lines, target, clock);
    }
  }

  lemma {:induction false} TextsTogether(a: seq<Block>, b: seq<Block>)
    ensures Texts(a + b) == Texts(a) + Texts(b)
  {
    if b == [] {
      assert a + b == a;
    } else {
      var rest := b[..|b| - 1];
      assert (a + b)[..|a + b| - 1] == a + rest;
      TextsTogether(a, rest);
    }
  }

  /** Images are skipped, wherever they are; any other block that is not text refuses the message. */
  lemma ImagesAreSkipped(m: Message, a: seq<Block>, b: seq<Block>)
    requires m.content == Blocks(a + b)
    ensures Prompt(m.(content := Blocks(a + [Image] + b))) == Prompt(m)
    ensures Prompt(m.(content := Blocks(a + [OtherBlock] + b))) == None
  {
    assert [Image][..0] == [] && Texts([Image]) == [];
    TextsTogether(a, b);
    TextsTogether(a + [Image], b);
    TextsTogether(a, [Image]);
    assert Texts(a) + [] == Texts(a);
    assert Showable([Image]) && !Showable([OtherBlock]) by { assert [OtherBlock][0].OtherBlock?; }
    hide Showable, Texts, Join;
    ShowableTogether(a, b);
    ShowableTogether(a, [Image]);
    ShowableTogether(a + [Image], b);
    ShowableTogether(a, [OtherBlock]);
    ShowableTogether(a + [OtherBlock], b);
  }

  lemma ShowableTogether(a: seq<Block>, b: seq<Block>)
    ensures Showable(a + b) <==> Showable(a) && Showable(b)
  {
    if Showable(a + b) {
      assert forall i | 0 <= i < |a| :: a[i] == (a + b)[i];
      assert forall i | 0 <= i < |b| :: b[i] == (a + b)[|a| + i];
    }
  }

  /** A message that a user typed is its text, or its text blocks on lines of their own; nothing else is a
    * prompt. */
  lemma PromptIsItsText(m: Message, text: string, blocks: seq<Block>)
    ensures Prompt(m).Some? ==> m.kind == "user" && m.role == "user" && !m.sidechain && !m.content.Unreadable?
    ensures m.kind == "user" && m.role == "user" && !m.sidechain ==>
      && Prompt(m.(content := Text(text))) == Some(text)
      && Prompt(m.(content := Blocks([TextBlock(text)]))) == Some(text)
      && (Prompt(m.(content := Blocks(blocks))).Some? && Texts(blocks) != [] ==>
            Prompt(m.(content := Blocks(blocks + [TextBlock(text)]))) ==
              Some(Prompt(m.(content := Blocks(blocks))).value + "\n" + text))
  {
    var one, more := [TextBlock(text)], blocks + [TextBlock(text)];
    assert one[..0] == [] && Texts(one) == [text];
    assert more[..|blocks|] == blocks && Texts(more) == Texts(blocks) + [text];
    assert (Texts(blocks) + [text])[..|Texts(blocks)|] == Texts(blocks);
  }

  /** A transcript of one line holds the message by its prompt exactly if the line is kept, has exactly the
    * prompt, and was written no earlier than the turn began and before the next one. */
  lemma OneLineIsLocated(m: Message, target: Target, clock: Clock)
    requires target.messageID != m.uuid
    ensures var located := Located([Some(m)], target, clock);
      var start, at, before := clock(target.startedAt), clock(m.timestamp), clock(target.before);
      && (located == Some(m) <==>
            && m.uuid != "" && !m.sidechain && Prompt(m) == Some(target.prompt)
            && start.Some? && at.Some? && start.value <= at.value
            && (target.before != "" ==> before.Some? && at.value < before.value))
      && (located.Some? ==> located == Some(m))
  {
    var lines: seq<Line> := [Some(m)];
    assert lines[..0] == [];
    assert ById(lines[..0]) == map[] && Candidates(lines[..0], target, clock) == [];
  }

  /** By its own ID a message is found whatever it says; of several lines with one ID the last one counts. */
  lemma LastLineIsLocated(lines: seq<Line>, m: Message, target: Target, clock: Clock)
    requires m.uuid != "" && !m.sidechain && target.messageID == m.uuid
    ensures Located(lines + [Some(m)], target, clock) == Some(m)
  {
    assert (lines + [Some(m)])[..|lines|] == lines;
  }

  /** A session is restarted exactly for a prompt without a parent; and resumed exactly after a prompt whose
    * parent is an assistant message that did not stop for a tool, with a complete history of its own. */
  lemma BoundaryExactly(lines: seq<Line>, target: Target, clock: Clock, m: Message)
    requires Located(lines, target, clock) == Some(m)
    ensures var byID, boundary := ById(lines), Boundary(lines, target, clock);
      && (boundary == Some("") <==> Prompt(m).Some? && m.parent == "")
      && (boundary.Some? && boundary.value != "" <==>
            && Prompt(m).Some? && m.parent != "" && m.parent in byID && byID[m.parent].kind == "assistant"
            && byID[m.parent].stopReason != "tool_use"
            && exists chain :: ReachesRoot(byID, m.parent, chain) && m.uuid !in chain)
      && (boundary.Some? ==> boundary.value == m.parent)
  {
    hide Located, ById, Prompt, ReachesRoot;
  }
}
