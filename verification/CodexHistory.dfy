/** Trimming the history of a Codex thread to a turn, against any server that pages it faithfully. */
module CodexHistory {
  import opened Options

  datatype Turn = Turn(id: string, inProgress: bool)

  /** Why a request failed: the method is unknown, or anything else, after which a request that
    * changes the history may or may not have taken effect. */
  datatype Fault = UnknownMethod | Broken

  datatype Page = Page(data: seq<Turn>, nextCursor: string)

  const UINT32: int := 0x1_0000_0000
  const PAGE_LIMIT := 100

  function DropLast(history: seq<Turn>, n: nat): seq<Turn> {
    if n <= |history| then history[..|history| - n] else []
  }

  predicate Distinct(history: seq<Turn>) {
    && (forall i | 0 <= i < |history| :: history[i].id != "")
    && (forall i, j | 0 <= i < j < |history| :: history[i].id != history[j].id)
  }

  /** The turn `offset` places before the newest one. */
  function FromEnd(history: seq<Turn>, offset: nat): Turn
    requires offset < |history|
  {
    history[|history| - 1 - offset]
  }

  /** The app-server: its history, oldest turn first, and everything about it that may vary. Page
    * sizes and cursors are its own choice, and unless it is reliable any request may break. */
  class Server {
    var history: seq<Turn>
    const rollsBack: bool
    const lists: bool
    const reliable: bool
    const sizes: (nat, nat) -> nat
    const cursors: nat -> string
    const trailing: bool

    ghost predicate Valid()
      reads this
    {
      && Distinct(history)
      && (forall p: nat, limit: nat | limit > 0 :: 1 <= sizes(p, limit) <= limit)
      && (forall p :: cursors(p) != "")
      && (forall p, q :: cursors(p) == cursors(q) ==> p == q)
    }

    constructor (turns: seq<Turn>, rollsBack: bool, lists: bool, reliable: bool, sizes: (nat, nat) -> nat,
        cursors: nat -> string, trailing: bool)
      requires Distinct(turns)
      requires forall p: nat, limit: nat | limit > 0 :: 1 <= sizes(p, limit) <= limit
      requires forall p :: cursors(p) != ""
      requires forall p, q :: cursors(p) == cursors(q) ==> p == q
      ensures Valid() && history == turns
    {
      history := turns;
      this.rollsBack, this.lists, this.reliable := rollsBack, lists, reliable;
      this.sizes, this.cursors, this.trailing := sizes, cursors, trailing;
    }

    method Breaks() returns (broken: bool)
      ensures broken ==> !reliable
    {
      var chance: bool := *;
      broken := chance && !reliable;
    }

    method Rollback(count: nat) returns (fault: Option<Fault>)
      requires Valid()
      modifies this
      ensures Valid()
      ensures fault.None? ==> rollsBack && history == DropLast(old(history), count)
      ensures fault == Some(UnknownMethod) ==> !rollsBack && history == old(history)
      ensures fault == Some(Broken) ==> !reliable && history in [old(history), DropLast(old(history), count)]
    {
      if !rollsBack { return Some(UnknownMethod); }
      var before := Breaks();
      var after := Breaks();
      if before { return Some(Broken); }
      history := DropLast(history, count);
      return if after then Some(Broken) else None;
    }

    /** Reverting removes a turn and everything after it. */
    method Revert(beforeTurn: string) returns (fault: Option<Fault>)
      requires Valid()
      requires exists i | 0 <= i < |history| :: history[i].id == beforeTurn
      modifies this
      ensures Valid()
      ensures exists i :: (0 <= i < |old(history)| && old(history)[i].id == beforeTurn
        && (fault.None? ==> history == old(history)[..i])
        && (fault.Some? ==> fault.value == Broken && !reliable && history in [old(history), old(history)[..i]]))
    {
      var i := 0;
      while history[i].id != beforeTurn
        invariant 0 <= i < |history| && forall j | 0 <= j < i :: history[j].id != beforeTurn
        decreases |history| - i
      {
        i := i + 1;
      }
      var before := Breaks();
      var after := Breaks();
      if before { return Some(Broken); }
      history := history[..i];
      return if after then Some(Broken) else None;
    }

    /** The page after `cursor`, newest turn first. */
    method ListTurns(cursor: string, limit: nat, ghost position: nat) returns (page: Page, fault: Option<Fault>)
      requires Valid() && limit > 0 && position <= |history|
      requires cursor == if position == 0 then "" else cursors(position)
      ensures fault.Some? ==> if fault.value == UnknownMethod then !lists else !reliable
      ensures fault.None? ==> lists
      ensures fault.None? ==> |page.data| <= limit && position + |page.data| <= |history|
      ensures fault.None? ==> (|page.data| > 0 <==> position < |history|)
      ensures fault.None? ==> forall i | 0 <= i < |page.data| :: page.data[i] == FromEnd(history, position + i)
      ensures fault.None? && page.nextCursor == "" ==> position + |page.data| == |history|
      ensures fault.None? && page.nextCursor != "" ==> page.nextCursor == cursors(position + |page.data|)
    {
      page := Page([], "");
      if !lists { return page, Some(UnknownMethod); }
      var broken := Breaks();
      if broken { return page, Some(Broken); }
      var start := 0;
      if cursor != "" {
        while cursors(start) != cursor
          invariant start <= position && cursor == cursors(position)
          decreases position - start
        {
          start := start + 1;
        }
      }
      var left := |history| - start;
      var size := sizes(start, limit);
      if size > left { size := left; }
      var data := seq(size, i requires 0 <= i < size && start + i < |history| reads this => FromEnd(history, start + i));
      return Page(data, if size == left && !trailing then "" else cursors(start + size)), None;
    }

    method Read() returns (turns: seq<Turn>, fault: Option<Fault>)
      ensures fault.None? ==> turns == history
      ensures fault.Some? ==> !reliable
    {
      var broken := Breaks();
      if broken { return [], Some(Broken); }
      return history, None;
    }
  }

  /** Older servers roll back a count, newer ones revert to a turn that has to be found by paging.
    * Either way success means that exactly the last `count` turns are gone. */
  method RevertThreadTurns(server: Server, count: nat) returns (ok: bool)
    requires server.Valid()
    modifies server
    ensures server.Valid()
    ensures ok ==> server.history == DropLast(old(server.history), count)
    ensures !ok ==> server.history in [old(server.history), DropLast(old(server.history), count)]
    ensures server.reliable ==> !ok ==> server.history == old(server.history)
    ensures server.reliable && server.lists ==> (ok <==> server.rollsBack || count <= |old(server.history)|)
    ensures server.reliable && server.rollsBack ==> ok
  {
    var fault := server.Rollback(count);
    if fault.None? { return true; }
    if fault.value != UnknownMethod { return false; }
    var remaining, cursor, seen := count, "", {};
    ghost var position: nat := 0;
    while remaining > 0
      invariant server.history == old(server.history) && server.Valid()
      invariant position + remaining == count && position <= |server.history| && (count > 0 ==> remaining > 0)
      invariant cursor == if position == 0 then "" else server.cursors(position)
      invariant forall c | c in seen :: exists p: nat :: p <= position && c == server.cursors(p)
      decreases remaining
    {
      var limit := if remaining < PAGE_LIMIT then remaining else PAGE_LIMIT;
      var page, broken := server.ListTurns(cursor, limit, position);
      if broken.Some? { return false; }
      for i := 0 to |page.data|
        invariant remaining == count - position - i && remaining > 0
        invariant server.history == old(server.history) && server.Valid()
      {
        var turn := page.data[i];
        if turn.id == "" { return false; }
        remaining := remaining - 1;
        if remaining == 0 {
          var k := |server.history| - 1 - (position + i);
          var failed := server.Revert(turn.id);
          assert old(server.history)[..k] == DropLast(old(server.history), count);
          return failed.None?;
        }
      }
      position := position + |page.data|;
      if page.nextCursor == "" || page.nextCursor in seen || |page.data| == 0 { return false; }
      cursor := page.nextCursor;
      seen := seen + {cursor};
    }
    assert server.history[..|server.history|] == server.history;
    return true;
  }

  /** `uint32` arithmetic on a number of turns. */
  function Counted(later: nat): nat { later % UINT32 }

  /** What trimming to `last` means: every later turn is dropped, counted in 32 bits. */
  predicate TrimmedTo(before: seq<Turn>, after: seq<Turn>, last: string, k: nat) {
    && k < |before| && before[k].id == last && !before[k].inProgress
    && after == DropLast(before, Counted(|before| - k - 1))
  }

  ghost predicate Trimmed(before: seq<Turn>, after: seq<Turn>, last: string) {
    exists k: nat :: TrimmedTo(before, after, last, k)
  }

  predicate Finished(history: seq<Turn>, last: string) {
    exists i | 0 <= i < |history| :: history[i].id == last && !history[i].inProgress
  }

  /** The end of every route: the turn is found, and `count` turns follow it. */
  method CutAfter(server: Server, turn: Turn, count: nat, ghost k: nat) returns (ok: bool)
    requires server.Valid() && k < |server.history| && server.history[k] == turn
    requires count == Counted(|server.history| - k - 1)
    modifies server
    ensures server.Valid()
    ensures ok ==> Trimmed(old(server.history), server.history, turn.id)
    ensures server.reliable ==> !ok ==> server.history == old(server.history)
    ensures server.reliable && (server.lists || server.rollsBack) ==> (ok <==> Finished(old(server.history), turn.id))
  {
    if turn.inProgress { return false; }
    ok := true;
    if count > 0 {
      ok := RevertThreadTurns(server, count);
    }
    assert ok ==> TrimmedTo(old(server.history), server.history, turn.id, k);
  }

  lemma AbsentIsUnfinished(history: seq<Turn>, last: string)
    requires forall p: nat | p < |history| :: FromEnd(history, p).id != last
    ensures !Finished(history, last)
  {
    forall i | 0 <= i < |history| ensures history[i].id != last {
      assert FromEnd(history, |history| - 1 - i) == history[i];
    }
  }

  lemma CountOneMore(later: nat)
    ensures (Counted(later) + 1) % UINT32 == Counted(later + 1)
  {
  }

  method TrimLegacyFork(server: Server, last: string, turns: seq<Turn>) returns (ok: bool)
    requires server.Valid() && turns == server.history
    modifies server
    ensures server.Valid()
    ensures ok ==> Trimmed(old(server.history), server.history, last)
    ensures server.reliable ==> !ok ==> server.history == old(server.history)
    ensures server.reliable && (server.lists || server.rollsBack) ==> (ok <==> Finished(old(server.history), last))
  {
    for index := 0 to |turns|
      invariant server.history == turns && server.Valid()
      invariant forall i | 0 <= i < index :: turns[i].id != last
    {
      var turn := turns[index];
      if turn.id != last { continue; }
      ok := CutAfter(server, turn, Counted(|turns| - index - 1), index);
      return;
    }
    return false;
  }

  /** Trims a fork by its inline turns, by paging, or by reading it whole: success by any of the
    * three means that the fork ends at `last`. */
  method TrimForkToTurn(server: Server, last: string, inlined: seq<Turn>) returns (ok: bool)
    requires server.Valid() && (inlined == [] || inlined == server.history)
    modifies server
    ensures server.Valid()
    ensures ok ==> Trimmed(old(server.history), server.history, last)
    ensures server.reliable ==> !ok ==> server.history == old(server.history)
    ensures server.reliable && (server.lists || server.rollsBack) ==> (ok <==> Finished(old(server.history), last))
  {
    assert Counted(0) == 0;
    hide Trimmed, Finished, Counted;
    if |inlined| > 0 {
      ok := TrimLegacyFork(server, last, inlined);
      return;
    }
    var cursor, seen, seenTurns, count := "", {}, {}, 0;
    ghost var position: nat := 0;
    while true
      invariant server.history == old(server.history) && server.Valid()
      invariant position <= |server.history| && count == Counted(position) && (position > 0 ==> server.lists)
      invariant cursor == if position == 0 then "" else server.cursors(position)
      invariant forall c | c in seen :: exists p: nat :: p <= position && c == server.cursors(p)
      invariant forall t | t in seenTurns :: exists p: nat :: p < position && t == FromEnd(server.history, p).id
      invariant forall p: nat | p < position :: FromEnd(server.history, p).id != last
      decreases |server.history| - position
    {
      var page, fault := server.ListTurns(cursor, PAGE_LIMIT, position);
      if fault.Some? {
        if cursor != "" || fault.value != UnknownMethod { return false; }
        assert position == 0;
        var turns, unread := server.Read();
        if unread.Some? { return false; }
        ok := TrimLegacyFork(server, last, turns);
        return;
      }
      for i := 0 to |page.data|
        invariant server.history == old(server.history) && server.Valid()
        invariant count == Counted(position + i)
        invariant forall t | t in seenTurns :: exists p: nat :: p < position + i && t == FromEnd(server.history, p).id
        invariant forall p: nat | p < position + i :: FromEnd(server.history, p).id != last
      {
        var turn := page.data[i];
        assert turn == FromEnd(server.history, position + i);
        if turn.id == "" || turn.id in seenTurns { return false; }
        seenTurns := seenTurns + {turn.id};
        if turn.id == last {
          ok := CutAfter(server, turn, count, |server.history| - 1 - (position + i));
          return;
        }
        CountOneMore(position + i);
        count := (count + 1) % UINT32;
      }
      position := position + |page.data|;
      if page.nextCursor == "" || page.nextCursor in seen || |page.data| == 0 {
        AbsentIsUnfinished(server.history, last);
        return false;
      }
      cursor := page.nextCursor;
      seen := seen + {cursor};
    }
  }

  /** A trimmed fork ends exactly at the requested turn if and only if fewer than 2^32 turns followed it. */
  lemma TrimmedEndsAtTurn(before: seq<Turn>, after: seq<Turn>, last: string, k: nat)
    requires Distinct(before) && TrimmedTo(before, after, last, k)
    ensures after == before[..k + 1] <==> |before| - k - 1 < UINT32
    ensures after == before[..k + 1] <==> |after| > 0 && after[|after| - 1].id == last
    ensures after == before[..k + 1] ==> !after[|after| - 1].inProgress
  {
    var later := |before| - k - 1;
    if later < UINT32 {
      assert Counted(later) == later;
    } else {
      assert Counted(later) < later;
      assert |after| > k + 1 && after[|after| - 1] == before[|after| - 1];
    }
  }

  /** A turn that is in the history is trimmed to exactly if it is finished. */
  lemma FinishedExactly(history: seq<Turn>, last: string, k: nat)
    requires Distinct(history) && k < |history| && history[k].id == last
    ensures Finished(history, last) <==> !history[k].inProgress
    ensures Trimmed(history, DropLast(history, Counted(|history| - k - 1)), last) <==> !history[k].inProgress
  {
    if !history[k].inProgress {
      assert TrimmedTo(history, DropLast(history, Counted(|history| - k - 1)), last, k);
    }
  }
}
