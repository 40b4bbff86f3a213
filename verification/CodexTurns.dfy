/** Which Codex turns are active, and when a new one may be started. */
module CodexTurns {
  import opened Options

  type Thread = string

  datatype TurnState = TurnState(turnID: string, active: bool)

  /** `starts` is history: the threads for which `turn/start` was sent, in order. */
  datatype Turns = Turns(threads: map<Thread, TurnState>, starts: seq<Thread>)

  datatype Step =
    | StartPrepared(thread: Thread)
    | StartFailed(thread: Thread)
    | StartAccepted(thread: Thread, turnID: string)
    | Started(thread: Thread, turnID: string)
    | Terminal(thread: Thread, turnID: string)
    | Reset

  /** A missing entry reads as Go's zero value. */
  function StateOf(t: Turns, thread: Thread): TurnState {
    if thread in t.threads then t.threads[thread] else TurnState("", false)
  }

  function Set(t: Turns, thread: Thread, state: TurnState): Turns {
    t.(threads := t.threads[thread := state])
  }

  /** A terminal notification is ignored when it and the thread name two different turns. */
  predicate Ignored(state: TurnState, turnID: string) {
    turnID != "" && state.turnID != "" && state.turnID != turnID
  }

  function Apply(t: Turns, step: Step): Turns {
    match step
    case StartPrepared(thread) =>
      if StateOf(t, thread).active then t
      else Set(t, thread, TurnState("", true)).(starts := t.starts + [thread])
    case StartFailed(thread) => Set(t, thread, StateOf(t, thread).(active := false))
    case StartAccepted(thread, turnID) => Set(t, thread, TurnState(turnID, true))
    case Started(thread, turnID) => if turnID == "" then t else Set(t, thread, TurnState(turnID, true))
    case Terminal(thread, turnID) =>
      if Ignored(StateOf(t, thread), turnID) then t else Set(t, thread, StateOf(t, thread).(active := false))
    case Reset => t.(threads := map[])
  }

  ghost predicate Behaviour(states: seq<Turns>, steps: seq<Step>) {
    |states| == |steps| + 1 && forall i | 0 <= i < |steps| :: states[i + 1] == Apply(states[i], steps[i])
  }

  predicate Sends(t: Turns, step: Step, thread: Thread) {
    step == StartPrepared(thread) && !StateOf(t, thread).active
  }

  /** A terminal notification that names the turn known to be active. */
  predicate EndsKnownTurn(t: Turns, step: Step, thread: Thread) {
    step.Terminal? && step.thread == thread && step.turnID != "" && step.turnID == StateOf(t, thread).turnID
  }

  /** A terminal notification that cannot be told apart: it, or the thread, names no turn. */
  predicate EndsBlindly(t: Turns, step: Step, thread: Thread) {
    step.Terminal? && step.thread == thread && (step.turnID == "" || StateOf(t, thread).turnID == "")
  }

  predicate Ends(t: Turns, step: Step, thread: Thread) {
    step == StartFailed(thread) || step == Reset || EndsKnownTurn(t, step, thread) || EndsBlindly(t, step, thread)
  }

  lemma {:induction false} StaysActive(states: seq<Turns>, steps: seq<Step>, i: nat, j: nat, thread: Thread)
    requires Behaviour(states, steps) && i <= j < |states| && StateOf(states[i], thread).active
    requires forall k | i <= k < j :: !Ends(states[k], steps[k], thread)
    ensures StateOf(states[j], thread).active
  {
    if i < j {
      StaysActive(states, steps, i, j - 1, thread);
      assert !Ends(states[j - 1], steps[j - 1], thread);
    }
  }

  /** `turn/start` goes out only for an idle thread, and twice for one thread only if in between the
    * first start failed, the process was lost, the turn known by then ended, or a terminal
    * notification came that could not be told apart. */
  lemma StartsNeedAnEnd(states: seq<Turns>, steps: seq<Step>, i: nat, j: nat, thread: Thread)
    requires Behaviour(states, steps) && i < j < |steps|
    requires Sends(states[i], steps[i], thread) && states[j + 1].starts == states[j].starts + [thread]
    ensures Sends(states[j], steps[j], thread)
    ensures exists k | i < k < j :: Ends(states[k], steps[k], thread)
  {
    assert |states[j + 1].starts| == |states[j].starts| + 1;
    assert states[j + 1].starts[|states[j].starts|] == thread;
    assert StateOf(states[i + 1], thread).active;
    if forall k | i < k < j :: !Ends(states[k], steps[k], thread) {
      StaysActive(states, steps, i + 1, j, thread);
    }
  }

  /** While `own` is active, a notification that another turn ended clears the mark exactly when the
    * reply that names `own` has not been handled yet, or the notification names no turn. */
  lemma ForeignTerminalClearsExactly(t: Turns, thread: Thread, own: string, other: string)
    requires StateOf(t, thread).active && StateOf(t, thread).turnID in ["", own] && other != own
    ensures !StateOf(Apply(t, Terminal(thread, other)), thread).active <==>
      StateOf(t, thread).turnID == "" || other == ""
  {
  }

  /** So a late notification of an old turn lets `turn/start` go out twice: from every table in which
    * the thread is idle, and without any end of either new turn. */
  lemma StaleTerminalAdmitsSecondStart(t: Turns, thread: Thread, stale: string)
    returns (states: seq<Turns>, steps: seq<Step>)
    requires !StateOf(t, thread).active
    ensures Behaviour(states, steps) && |steps| == 3 && states[0] == t
    ensures Sends(states[0], steps[0], thread) && steps[1] == Terminal(thread, stale)
    ensures Sends(states[2], steps[2], thread)
  {
    steps := [StartPrepared(thread), Terminal(thread, stale), StartPrepared(thread)];
    var t1 := Apply(t, steps[0]);
    var t2 := Apply(t1, steps[1]);
    states := [t, t1, t2, Apply(t2, steps[2])];
  }

  /** Once the reply has named the turn and every notification names one, only a failed start, a lost
    * process or the end of the known turn lets another start out. */
  lemma StartsNeedTheKnownEnd(states: seq<Turns>, steps: seq<Step>, i: nat, j: nat, thread: Thread)
    requires Behaviour(states, steps) && i < j < |steps|
    requires Sends(states[i], steps[i], thread) && Sends(states[j], steps[j], thread)
    requires forall k | i < k < j :: !EndsBlindly(states[k], steps[k], thread)
    ensures exists k | i < k < j :: (steps[k] == StartFailed(thread) || steps[k] == Reset
      || EndsKnownTurn(states[k], steps[k], thread))
  {
    StartsNeedAnEnd(states, steps, i, j, thread);
    var k :| i < k < j && Ends(states[k], steps[k], thread);
  }

  /** The mark after any step: a start, its acceptance and a named start notification set it; a failed
    * start, a lost process and a terminal notification that is not about another known turn clear it. */
  lemma MarkFollowsExactly(t: Turns, step: Step, thread: Thread)
    ensures var before, after := StateOf(t, thread), StateOf(Apply(t, step), thread);
      match step
      case StartPrepared(o) => after == if o == thread && !before.active then TurnState("", true) else before
      case StartFailed(o) => after == if o == thread then TurnState(before.turnID, false) else before
      case StartAccepted(o, id) => after == if o == thread then TurnState(id, true) else before
      case Started(o, id) => after == if o == thread && id != "" then TurnState(id, true) else before
      case Terminal(o, id) =>
        after == if o == thread && (id == "" || before.turnID == "" || id == before.turnID)
                 then TurnState(before.turnID, false) else before
      case Reset => after == TurnState("", false)
    ensures Sends(t, step, thread) ==> Apply(t, step).starts == t.starts + [thread]
    ensures !(step.StartPrepared? && Sends(t, step, step.thread)) ==> Apply(t, step).starts == t.starts
  {
  }

  /** A thread that never started a turn, or whose start failed, or whose process was lost, can start one. */
  lemma FreedThreadStarts(t: Turns, thread: Thread)
    ensures thread !in t.threads ==> Sends(t, StartPrepared(thread), thread)
    ensures Sends(Apply(t, StartFailed(thread)), StartPrepared(thread), thread)
    ensures Sends(Apply(t, Reset), StartPrepared(thread), thread)
    ensures StateOf(t, thread).turnID != "" ==>
      Sends(Apply(t, Terminal(thread, StateOf(t, thread).turnID)), StartPrepared(thread), thread)
    ensures !Sends(Apply(t, StartPrepared(thread)), StartPrepared(thread), thread)
  {
  }

  class Table {
    var threads: map<Thread, TurnState>
    ghost var starts: seq<Thread>

    ghost function State(): Turns
      reads this
    {
      Turns(threads, starts)
    }

    function Current(thread: Thread): TurnState
      reads this
    {
      if thread in threads then threads[thread] else TurnState("", false)
    }

    /** The check and the mark are one critical section; the request follows it. */
    method StartPrepared(thread: Thread) returns (send: bool)
      modifies this
      ensures State() == Apply(old(State()), Step.StartPrepared(thread))
      ensures send <==> Sends(old(State()), Step.StartPrepared(thread), thread)
    {
      if Current(thread).active { return false; }
      threads := threads[thread := TurnState("", true)];
      starts := starts + [thread];
      return true;
    }

    /** The reply to `turn/start`: an error or an empty ID clears the mark. */
    method FinishStart(thread: Thread, reply: Option<string>) returns (accepted: bool)
      modifies this
      ensures accepted <==> reply.Some? && reply.value != ""
      ensures State() == Apply(old(State()), if accepted then StartAccepted(thread, reply.value) else StartFailed(thread))
    {
      if reply.None? || reply.value == "" {
        threads := threads[thread := Current(thread).(active := false)];
        return false;
      }
      threads := threads[thread := TurnState(reply.value, true)];
      return true;
    }

    method HandleNotification(thread: Thread, turnID: string, started: bool, terminal: bool) returns (ignore: bool)
      requires !(started && terminal)
      modifies this
      ensures State() == if started then Apply(old(State()), Step.Started(thread, turnID))
        else if terminal then Apply(old(State()), Terminal(thread, turnID)) else old(State())
      ensures ignore <==> terminal && Ignored(old(Current(thread)), turnID)
    {
      ignore := false;
      if started && turnID != "" {
        threads := threads[thread := TurnState(turnID, true)];
      }
      if terminal {
        var state := Current(thread);
        if turnID != "" && state.turnID != "" && state.turnID != turnID {
          ignore := true;
        } else {
          threads := threads[thread := state.(active := false)];
        }
      }
    }
  }
}
