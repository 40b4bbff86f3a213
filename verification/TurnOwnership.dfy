/** Turn ownership at the control plane: the two-level state machine of operation
    rows and thread rows.  `Gateway`'s methods run the guarded updates in the order of
    the program, `...Step` gives the row state each of them ends in, and the lemmas say
    what every Agent message keeps, whatever order messages arrive in. */
module TurnOwnership {
  import opened Options
  import opened Protocol

  type ThreadId = string

  datatype OpStatus = Queued | Delivered | Executing | Ended(status: Status)

  datatype ThreadStatus = Idle | Waiting | Running | Interrupting | Stopped | Broken

  /** `thread`, `target` and `recovery` come from the payload; `target` and `recovery`
      are read for turn interrupts only. */
  datatype OpRow = OpRow(kind: Kind, thread: ThreadId, target: OpId, recovery: bool, status: OpStatus)

  datatype ThreadRow = ThreadRow(current: OpId, status: ThreadStatus)

  datatype Rows = Rows(ops: map<OpId, OpRow>, threads: map<ThreadId, ThreadRow>)

  predicate Active(status: OpStatus) { !status.Ended? }

  /** Delivered or running: the states in which an Agent may own the operation. */
  predicate Owned(status: OpStatus) { status.Delivered? || status.Executing? }

  predicate OpActive(rows: Rows, op: OpId) {
    op in rows.ops && Active(rows.ops[op].status)
  }

  // ---------------------------------------------------------- guarded updates

  /** The compare-and-set from {queued, delivered, running} to a terminal status. */
  function EndIfActive(rows: Rows, op: OpId, status: Status): Rows {
    if OpActive(rows, op) then rows.(ops := rows.ops[op := rows.ops[op].(status := Ended(status))]) else rows
  }

  predicate IsCurrent(rows: Rows, thread: ThreadId, op: OpId) {
    thread in rows.threads && rows.threads[thread].current == op
  }

  function SetThread(rows: Rows, thread: ThreadId, status: ThreadStatus): Rows
    requires thread in rows.threads
  {
    rows.(threads := rows.threads[thread := rows.threads[thread].(status := status)])
  }

  /** The thread status a finished turn leaves behind. */
  function TurnStatus(result: OperationResult, before: ThreadStatus): ThreadStatus {
    if before.Interrupting? || result.status.Interrupted? || result.status.Cancelled? then Stopped
    else if result.status.Succeeded? then Idle else Broken
  }

  function CompleteTurnStep(rows: Rows, op: OpId, row: OpRow, result: OperationResult): Rows {
    if IsCurrent(rows, row.thread, op)
    then SetThread(rows, row.thread, TurnStatus(result, rows.threads[row.thread].status))
    else rows
  }

  /** A probe reply or an ownership failure moves the thread only, and only while the
      operation is delivered or running. */
  function OwnershipStep(rows: Rows, op: OpId, active: bool): Rows {
    if op !in rows.ops || !IsTurn(rows.ops[op].kind) || !Owned(rows.ops[op].status) then rows
    else
      var thread := rows.ops[op].thread;
      if !IsCurrent(rows, thread, op) then rows
      else
        var status := rows.threads[thread].status;
        if active then (if status.Stopped? then SetThread(rows, thread, Running) else rows)
        else if status.Waiting? || status.Running? || status.Interrupting? then SetThread(rows, thread, Stopped) else rows
  }

  /** A failed interrupt releases the thread.  Its guard is the thread status alone. */
  function InterruptFailedStep(rows: Rows, row: OpRow): Rows {
    if IsCurrent(rows, row.thread, row.target) && rows.threads[row.thread].status.Interrupting?
    then SetThread(rows, row.thread, if row.recovery then Stopped else Running)
    else rows
  }

  function StoppedResult(target: OpId): OperationResult { OperationResult(target, Cancelled, Plain, None) }

  /** A termination receipt ends the target and then its thread.  Gemini first checks
      that the thread still waits for this very interruption. */
  function InterruptSucceededStep(rows: Rows, row: OpRow, result: OperationResult): Rows {
    if result.stopped != Some(row.target) || row.target !in rows.ops then rows
    else if row.kind.GeminiTurnInterrupt? && !(IsCurrent(rows, row.thread, row.target) && rows.threads[row.thread].status.Interrupting?) then rows
    else if row.kind.ClaudeTurnInterrupt? && !OpActive(rows, row.target) then rows
    else
      var ended := EndIfActive(rows, row.target, Cancelled);
      if ended.ops[row.target].status != Ended(Cancelled) then ended
      else CompleteTurnStep(ended, row.target, rows.ops[row.target], StoppedResult(row.target))
  }

  function CompleteInterruptStep(rows: Rows, row: OpRow, result: OperationResult): Rows {
    if result.status.Succeeded? then InterruptSucceededStep(rows, row, result)
    else if result.note.OwnershipLost? then OwnershipStep(rows, row.target, false)
    else InterruptFailedStep(rows, row)
  }

  predicate CountsAsInterrupted(kind: Kind, result: OperationResult) {
    IsTurn(kind) && (result.status.Interrupted? || result.status.Cancelled? || (result.status.Failed? && result.note.ContextCanceled?))
  }

  /** An operation result: a late one is ignored, an interrupted turn counts as cancelled. */
  function ResultStep(rows: Rows, result: OperationResult): Rows {
    if !OpActive(rows, result.op) then rows
    else
      var row := rows.ops[result.op];
      var r := if CountsAsInterrupted(row.kind, result) then result.(status := Cancelled) else result;
      var ended := EndIfActive(rows, r.op, r.status);
      if IsTurn(row.kind) then CompleteTurnStep(ended, r.op, row, r)
      else if IsTurnInterrupt(row.kind) && !r.status.Cancelled? then CompleteInterruptStep(ended, row, r)
      else ended
  }

  function StartedStep(rows: Rows, op: OpId): Rows {
    if OpActive(rows, op) then rows.(ops := rows.ops[op := rows.ops[op].(status := Executing)]) else rows
  }

  /** The first event of a turn's process; one SQL statement with both guards. */
  function InitStep(rows: Rows, thread: ThreadId, op: OpId): Rows {
    if !IsCurrent(rows, thread, op) || !OpActive(rows, op) || !IsTurn(rows.ops[op].kind) then rows
    else
      var status := rows.threads[thread].status;
      if status.Waiting? || status.Running? then SetThread(rows, thread, Running) else rows
  }

  /** The one-shot claim that precedes the only delivery of a turn operation. */
  function ClaimStep(rows: Rows, op: OpId): Rows {
    if op in rows.ops && IsTurn(rows.ops[op].kind) && rows.ops[op].status.Queued?
    then rows.(ops := rows.ops[op := rows.ops[op].(status := Delivered)]) else rows
  }

  // ------------------------------------------------------- user-side requests

  /** A new row gets an ID nothing refers to yet. */
  predicate Fresh(rows: Rows, op: OpId) {
    op !in rows.ops && forall t | t in rows.threads :: rows.threads[t].current != op
  }

  predicate MayQueueTurn(rows: Rows, thread: ThreadId, op: OpId, kind: Kind) {
    && Fresh(rows, op) && IsTurn(kind) && thread in rows.threads
    && var t := rows.threads[thread];
       !t.status.Waiting? && !t.status.Running? && !t.status.Interrupting? && !(t.status.Stopped? && OpActive(rows, t.current))
  }

  function QueueTurnStep(rows: Rows, thread: ThreadId, op: OpId, kind: Kind): Rows
    requires MayQueueTurn(rows, thread, op, kind)
  {
    Rows(rows.ops[op := OpRow(kind, thread, "", false, Queued)], rows.threads[thread := ThreadRow(op, Waiting)])
  }

  predicate MayInterrupt(rows: Rows, thread: ThreadId, interrupt: OpId) {
    && Fresh(rows, interrupt) && thread in rows.threads && OpActive(rows, rows.threads[thread].current)
    && IsTurn(rows.ops[rows.threads[thread].current].kind)
    && var t := rows.threads[thread];
       t.status.Waiting? || t.status.Running? || (t.status.Stopped? && Owned(rows.ops[t.current].status))
  }

  /** An undispatched turn is cancelled on the spot; otherwise an interrupt is queued. */
  function InterruptStep(rows: Rows, thread: ThreadId, interrupt: OpId): Rows
    requires MayInterrupt(rows, thread, interrupt)
  {
    var t := rows.threads[thread];
    var row := rows.ops[t.current];
    if row.status.Queued? then SetThread(EndIfActive(rows, t.current, Cancelled), thread, Stopped)
    else
      var kind := if row.kind.ClaudeTurnStart? then ClaudeTurnInterrupt else GeminiTurnInterrupt;
      SetThread(rows.(ops := rows.ops[interrupt := OpRow(kind, thread, t.current, t.status.Stopped?, Queued)]), thread, Interrupting)
  }

  /** A Gemini turn that was delivered and is found cancelled gets an interrupt of its own. */
  predicate MayFollowUp(rows: Rows, op: OpId, interrupt: OpId) {
    && Fresh(rows, interrupt) && op in rows.ops && IsGeminiTurn(rows.ops[op].kind)
    && rows.ops[op].status == Ended(Cancelled)
  }

  function FollowUpStep(rows: Rows, op: OpId, interrupt: OpId): Rows
    requires MayFollowUp(rows, op, interrupt)
  {
    rows.(ops := rows.ops[interrupt := OpRow(GeminiTurnInterrupt, rows.ops[op].thread, op, false, Queued)])
  }

  // ------------------------------------------------------------------ messages

  datatype AgentMessage =
    | ResultMessage(result: OperationResult)
    | StartedMessage(op: OpId)
    | InitMessage(thread: ThreadId, op: OpId)
    | OwnershipMessage(op: OpId, active: bool)

  function HandleStep(rows: Rows, m: AgentMessage): Rows {
    match m
    case ResultMessage(r) => ResultStep(rows, r)
    case StartedMessage(op) => StartedStep(rows, op)
    case InitMessage(thread, op) => InitStep(rows, thread, op)
    case OwnershipMessage(op, active) => OwnershipStep(rows, op, active)
  }

  // ----------------------------------------------------------------- invariant

  /** Every thread's current operation is a turn of that thread; every interrupt row
      names a turn of its own thread and family. */
  predicate Linked(rows: Rows) {
    && (forall t | t in rows.threads && rows.threads[t].current in rows.ops ::
          IsTurn(rows.ops[rows.threads[t].current].kind) && rows.ops[rows.threads[t].current].thread == t)
    && (forall op | op in rows.ops && IsTurnInterrupt(rows.ops[op].kind) ::
          && rows.ops[op].target in rows.ops
          && InterruptMatches(rows.ops[op].kind, rows.ops[rows.ops[op].target].kind)
          && rows.ops[rows.ops[op].target].thread == rows.ops[op].thread)
  }

  /** A thread that waits, runs or is being interrupted has an active current operation. */
  predicate BusyMeansActive(rows: Rows) {
    forall t | t in rows.threads
               && (rows.threads[t].status.Waiting? || rows.threads[t].status.Running? || rows.threads[t].status.Interrupting?) ::
      OpActive(rows, rows.threads[t].current)
  }

  predicate RowsSound(rows: Rows) { Linked(rows) && BusyMeansActive(rows) }

  lemma MessageKeepsRowsSound(rows: Rows, m: AgentMessage)
    requires RowsSound(rows)
    ensures RowsSound(HandleStep(rows, m))
  {
    match m
    case ResultMessage(r) => ResultKeepsRowsSound(rows, r);
    case StartedMessage(_) =>
    case InitMessage(_, _) =>
    case OwnershipMessage(_, _) =>
  }

  /** Ending a turn and settling its thread in one handling keeps the invariant. */
  lemma EndTurnKeepsRowsSound(rows: Rows, op: OpId, result: OperationResult)
    requires RowsSound(rows) && OpActive(rows, op) && IsTurn(rows.ops[op].kind)
    ensures RowsSound(CompleteTurnStep(EndIfActive(rows, op, result.status), op, rows.ops[op], result))
  {
  }

  lemma EndOtherKeepsRowsSound(rows: Rows, op: OpId, status: Status)
    requires RowsSound(rows) && OpActive(rows, op) && !IsTurn(rows.ops[op].kind)
    ensures RowsSound(EndIfActive(rows, op, status))
  {
  }

  lemma ResultKeepsRowsSound(rows: Rows, result: OperationResult)
    requires RowsSound(rows)
    ensures RowsSound(ResultStep(rows, result))
  {
    if OpActive(rows, result.op) {
      var row := rows.ops[result.op];
      var r := if CountsAsInterrupted(row.kind, result) then result.(status := Cancelled) else result;
      if IsTurn(row.kind) {
        EndTurnKeepsRowsSound(rows, r.op, r);
      } else {
        EndOtherKeepsRowsSound(rows, r.op, r.status);
        var ended := EndIfActive(rows, r.op, r.status);
        if IsTurnInterrupt(row.kind) && !r.status.Cancelled? {
          CompleteInterruptKeepsRowsSound(ended, row, r);
        }
      }
    }
  }

  lemma CompleteInterruptKeepsRowsSound(rows: Rows, row: OpRow, result: OperationResult)
    requires RowsSound(rows) && IsTurnInterrupt(row.kind)
    requires row.target in rows.ops && InterruptMatches(row.kind, rows.ops[row.target].kind) && rows.ops[row.target].thread == row.thread
    ensures RowsSound(CompleteInterruptStep(rows, row, result))
  {
    if result.status.Succeeded? && OpActive(rows, row.target) {
      EndTurnKeepsRowsSound(rows, row.target, StoppedResult(row.target));
    }
  }

  lemma ClaimKeepsRowsSound(rows: Rows, op: OpId)
    requires RowsSound(rows)
    ensures RowsSound(ClaimStep(rows, op))
  {
  }

  lemma QueueTurnKeepsRowsSound(rows: Rows, thread: ThreadId, op: OpId, kind: Kind)
    requires RowsSound(rows) && MayQueueTurn(rows, thread, op, kind)
    ensures RowsSound(QueueTurnStep(rows, thread, op, kind))
  {
  }

  lemma InterruptKeepsRowsSound(rows: Rows, thread: ThreadId, interrupt: OpId)
    requires RowsSound(rows) && MayInterrupt(rows, thread, interrupt)
    ensures RowsSound(InterruptStep(rows, thread, interrupt))
  {
  }

  lemma FollowUpKeepsRowsSound(rows: Rows, op: OpId, interrupt: OpId)
    requires RowsSound(rows) && MayFollowUp(rows, op, interrupt)
    ensures RowsSound(FollowUpStep(rows, op, interrupt))
  {
  }

  // ----------------------------------------------------------- no resurrection

  /** The thread's current operation is terminal (or its row is gone). */
  predicate Settled(rows: Rows, thread: ThreadId) {
    thread in rows.threads && !OpActive(rows, rows.threads[thread].current)
  }

  /** Between handlings, no Agent message of any kind changes a settled thread at all. */
  lemma NoResurrection(rows: Rows, m: AgentMessage, thread: ThreadId)
    requires RowsSound(rows) && Settled(rows, thread)
    ensures Settled(HandleStep(rows, m), thread)
    ensures HandleStep(rows, m).threads[thread] == rows.threads[thread]
  {
    match m
    case ResultMessage(r) => EndedIsFinal(rows, m, rows.threads[thread].current);
    case StartedMessage(_) =>
    case InitMessage(_, _) =>
    case OwnershipMessage(_, _) =>
  }

  /** A terminal status never changes again. */
  lemma EndedIsFinal(rows: Rows, m: AgentMessage, op: OpId)
    requires !OpActive(rows, op)
    ensures !OpActive(HandleStep(rows, m), op)
    ensures op in rows.ops ==> op in HandleStep(rows, m).ops && HandleStep(rows, m).ops[op] == rows.ops[op]
  {
  }

  /** Neither a probe reply nor an interrupt that lost its owner ends the turn. */
  lemma LostOwnershipNeverEnds(rows: Rows, m: AgentMessage, op: OpId)
    requires op in rows.ops && IsTurn(rows.ops[op].kind)
    requires m.OwnershipMessage? || (m.ResultMessage? && m.result.op != op && m.result.note.OwnershipLost? && !m.result.status.Succeeded?)
    ensures op in HandleStep(rows, m).ops && HandleStep(rows, m).ops[op].status == rows.ops[op].status
  {
  }

  /** The two ways an Agent message can make a turn terminal. */
  predicate EndsTurn(rows: Rows, m: AgentMessage, op: OpId) {
    m.ResultMessage? &&
    (m.result.op == op ||
     (m.result.status.Succeeded? && m.result.stopped == Some(op)))
  }

  lemma TurnsEndOnlyByReceipt(rows: Rows, m: AgentMessage, op: OpId)
    requires OpActive(rows, op) && IsTurn(rows.ops[op].kind) && !OpActive(HandleStep(rows, m), op)
    ensures EndsTurn(rows, m, op)
  {
  }

  /** A failed interrupt, neither cancelled nor disowned, of an active operation that is still being
      interrupted for this thread's current turn. */
  predicate FailedInterruptOf(rows: Rows, m: AgentMessage, thread: ThreadId)
    requires thread in rows.threads
  {
    && m.ResultMessage? && OpActive(rows, m.result.op) && IsTurnInterrupt(rows.ops[m.result.op].kind)
    && m.result.status in {Failed, Interrupted} && !m.result.note.OwnershipLost?
    && var row := rows.ops[m.result.op];
       row.thread == thread && row.target == rows.threads[thread].current && !row.recovery
       && rows.threads[thread].status.Interrupting?
  }

  /** On arbitrary rows, sound or not, and for every Agent message: a thread whose operation is over
      starts running again exactly by such a failed interrupt.  On sound rows there is none. */
  lemma FailedInterruptRevivesExactly(rows: Rows, m: AgentMessage, thread: ThreadId)
    requires Settled(rows, thread) && !rows.threads[thread].status.Running?
    ensures HandleStep(rows, m).threads[thread].status.Running? <==> FailedInterruptOf(rows, m, thread)
    ensures RowsSound(rows) ==> !FailedInterruptOf(rows, m, thread)
  {
    match m
    case ResultMessage(r) =>
      if OpActive(rows, r.op) && IsTurnInterrupt(rows.ops[r.op].kind) && r.status.Succeeded? {
        assert HandleStep(rows, m).threads[thread].status != Running;
      }
    case StartedMessage(_) =>
    case InitMessage(_, _) =>
    case OwnershipMessage(_, _) =>
  }

  /** So "between handlings" matters: if a handling stops after ending the operation and
      before settling its thread, a failed interrupt revives the thread. */
  lemma HalfHandledResultCanBeRevived(thread: ThreadId, op: OpId, interrupt: OpId) returns (rows: Rows, half: Rows, m: AgentMessage)
    requires op != interrupt
    ensures RowsSound(rows) && half == EndIfActive(rows, op, Succeeded)
    ensures Settled(half, thread) && !half.threads[thread].status.Running? && FailedInterruptOf(half, m, thread)
    ensures Settled(HandleStep(half, m), thread) && HandleStep(half, m).threads[thread].status.Running?
  {
    rows := Rows(map[op := OpRow(ClaudeTurnStart, thread, "", false, Executing),
                     interrupt := OpRow(ClaudeTurnInterrupt, thread, op, false, Delivered)],
                 map[thread := ThreadRow(op, Interrupting)]);
    half := EndIfActive(rows, op, Succeeded);
    m := ResultMessage(OperationResult(interrupt, Failed, Plain, None));
  }

  // ---------------------------------------------------------------------- runs

  datatype GatewayStep =
    | Handle(m: AgentMessage)
    | Claim(op: OpId)
    | QueueTurn(thread: ThreadId, op: OpId, kind: Kind)
    | RequestInterrupt(thread: ThreadId, interrupt: OpId)
    | FollowUp(op: OpId, interrupt: OpId)

  predicate StepEnabled(rows: Rows, step: GatewayStep) {
    match step
    case Handle(_) => true
    case Claim(_) => true
    case QueueTurn(thread, op, kind) => MayQueueTurn(rows, thread, op, kind)
    case RequestInterrupt(thread, interrupt) => MayInterrupt(rows, thread, interrupt)
    case FollowUp(op, interrupt) => MayFollowUp(rows, op, interrupt)
  }

  function Apply(rows: Rows, step: GatewayStep): Rows
    requires StepEnabled(rows, step)
  {
    match step
    case Handle(m) => HandleStep(rows, m)
    case Claim(op) => ClaimStep(rows, op)
    case QueueTurn(thread, op, kind) => QueueTurnStep(rows, thread, op, kind)
    case RequestInterrupt(thread, interrupt) => InterruptStep(rows, thread, interrupt)
    case FollowUp(op, interrupt) => FollowUpStep(rows, op, interrupt)
  }

  ghost predicate Run(history: seq<Rows>, steps: seq<GatewayStep>) {
    && |history| == |steps| + 1 && RowsSound(history[0])
    && forall k | 0 <= k < |steps| :: StepEnabled(history[k], steps[k]) && history[k + 1] == Apply(history[k], steps[k])
  }

  lemma {:induction false} RunKeepsRowsSound(history: seq<Rows>, steps: seq<GatewayStep>, k: nat)
    requires Run(history, steps) && k < |history|
    ensures RowsSound(history[k])
  {
    if k > 0 {
      RunKeepsRowsSound(history, steps, k - 1);
      match steps[k - 1]
      case Handle(m) => MessageKeepsRowsSound(history[k - 1], m);
      case Claim(op) => ClaimKeepsRowsSound(history[k - 1], op);
      case QueueTurn(thread, op, kind) => QueueTurnKeepsRowsSound(history[k - 1], thread, op, kind);
      case RequestInterrupt(thread, interrupt) => InterruptKeepsRowsSound(history[k - 1], thread, interrupt);
      case FollowUp(op, interrupt) => FollowUpKeepsRowsSound(history[k - 1], op, interrupt);
    }
  }

  lemma SettledStepStays(rows: Rows, step: GatewayStep, thread: ThreadId)
    requires RowsSound(rows) && StepEnabled(rows, step) && Settled(rows, thread)
    requires step.QueueTurn? ==> step.thread != thread
    ensures Settled(Apply(rows, step), thread) && Apply(rows, step).threads[thread] == rows.threads[thread]
  {
    if step.Handle? { NoResurrection(rows, step.m, thread); }
  }

  /** Over a whole run, a settled thread stays exactly as it is until a user gives it a
      new turn: no late init, probe reply, result or failed interrupt brings it back. */
  lemma {:induction false} SettledUntilNewTurn(history: seq<Rows>, steps: seq<GatewayStep>, i: nat, j: nat, thread: ThreadId)
    requires Run(history, steps) && i <= j < |history| && Settled(history[i], thread)
    requires forall k | i <= k < j && steps[k].QueueTurn? :: steps[k].thread != thread
    ensures Settled(history[j], thread) && history[j].threads[thread] == history[i].threads[thread]
    decreases j
  {
    if i < j {
      SettledUntilNewTurn(history, steps, i, j - 1, thread);
      RunKeepsRowsSound(history, steps, j - 1);
      SettledStepStays(history[j - 1], steps[j - 1], thread);
    }
  }

  // ------------------------------------------------------------- the program's form

  class Gateway {
    var ops: map<OpId, OpRow>
    var threads: map<ThreadId, ThreadRow>

    function State(): Rows
      reads this
    {
      Rows(ops, threads)
    }

    method CompleteOperationIfActive(op: OpId, status: Status) returns (claimed: bool)
      modifies this`ops
      ensures claimed == OpActive(old(State()), op) && State() == EndIfActive(old(State()), op, status)
    {
      claimed := op in ops && Active(ops[op].status);
      if claimed { ops := ops[op := ops[op].(status := Ended(status))]; }
    }

    method SetCurrentThread(thread: ThreadId, op: OpId, from: set<ThreadStatus>, to: ThreadStatus) returns (changed: bool)
      modifies this`threads
      ensures changed == (IsCurrent(old(State()), thread, op) && old(threads)[thread].status in from)
      ensures State() == if changed then SetThread(old(State()), thread, to) else old(State())
    {
      changed := thread in threads && threads[thread].current == op && threads[thread].status in from;
      if changed { threads := threads[thread := threads[thread].(status := to)]; }
    }

    method HandleOperationResult(result: OperationResult)
      modifies this
      ensures State() == ResultStep(old(State()), result)
    {
      if result.op !in ops || !Active(ops[result.op].status) { return; }
      var row := ops[result.op];
      if result.status.Cancelled? && CanInterruptOperation(row.kind) {
        var _ := CompleteOperationIfActive(result.op, Cancelled);
        return;
      }
      var r, interrupted, claimed := result, CountsAsInterrupted(row.kind, result), false;
      if interrupted { r := result.(status := Cancelled); }
      if interrupted || row.kind.ClaudeTurnStart? {
        claimed := CompleteOperationIfActive(r.op, r.status);
        if !claimed { return; }
      } else {
        var _ := CompleteOperationIfActive(r.op, r.status);
      }
      if ops[r.op].status == Ended(Cancelled) && !claimed { return; }
      if IsTurn(row.kind) {
        CompleteTurn(r.op, row, r);
      } else if IsTurnInterrupt(row.kind) {
        CompleteInterrupt(row, r);
      }
    }

    method CompleteTurn(op: OpId, row: OpRow, result: OperationResult)
      modifies this`threads
      ensures State() == CompleteTurnStep(old(State()), op, row, result)
      ensures IsCurrent(old(State()), row.thread, op) ==>
        var was, status := old(threads)[row.thread].status.Interrupting?, threads[row.thread].status;
        && (status == Idle <==> result.status.Succeeded? && !was)
        && (status == Stopped <==> was || result.status.Cancelled? || result.status.Interrupted?)
        && (status == Broken <==> result.status.Failed? && !was)
    {
      if row.thread !in threads || threads[row.thread].current != op { return; }
      var status := Idle;
      if !result.status.Succeeded? { status := Broken; }
      if result.status.Cancelled? || result.status.Interrupted? { status := Stopped; }
      if threads[row.thread].status.Interrupting? { status := Stopped; }
      threads := threads[row.thread := threads[row.thread].(status := status)];
    }

    method CompleteInterrupt(row: OpRow, result: OperationResult)
      requires IsTurnInterrupt(row.kind)
      modifies this
      ensures State() == CompleteInterruptStep(old(State()), row, result)
    {
      if result.status.Succeeded? {
        if result.stopped != Some(row.target) || row.target !in ops { return; }
        var original := ops[row.target];
        if row.kind.GeminiTurnInterrupt? {
          if row.thread !in threads || threads[row.thread].current != row.target || !threads[row.thread].status.Interrupting? { return; }
          var _ := CompleteOperationIfActive(row.target, Cancelled);
          if ops[row.target].status != Ended(Cancelled) { return; }
        } else {
          var claimed := CompleteOperationIfActive(row.target, Cancelled);
          if !claimed { return; }
        }
        CompleteTurn(row.target, original, StoppedResult(row.target));
      } else if result.note.OwnershipLost? {
        UpdateOwnership(row.target, false);
      } else {
        var _ := SetCurrentThread(row.thread, row.target, {Interrupting}, if row.recovery then Stopped else Running);
      }
    }

    method UpdateOwnership(op: OpId, active: bool)
      modifies this`threads
      ensures State() == OwnershipStep(old(State()), op, active)
    {
      if op !in ops || !IsTurn(ops[op].kind) || !Owned(ops[op].status) { return; }
      var to, from := Stopped, {Waiting, Running, Interrupting};
      if active { to, from := Running, {Stopped}; }
      var _ := SetCurrentThread(ops[op].thread, op, from, to);
    }

    method HandleInit(thread: ThreadId, op: OpId)
      modifies this`threads
      ensures State() == InitStep(old(State()), thread, op)
    {
      if thread !in threads || threads[thread].current != op { return; }
      if op !in ops || !IsTurn(ops[op].kind) || !Active(ops[op].status) { return; }
      var _ := SetCurrentThread(thread, op, {Waiting, Running}, Running);
    }

    method ClaimDelivery(op: OpId) returns (claimed: bool)
      modifies this`ops
      ensures State() == ClaimStep(old(State()), op)
      ensures claimed == (op in old(ops) && IsTurn(old(ops)[op].kind) && old(ops)[op].status.Queued?)
    {
      claimed := op in ops && ops[op].status.Queued? && IsTurn(ops[op].kind);
      if claimed { ops := ops[op := ops[op].(status := Delivered)]; }
    }
  }
}
