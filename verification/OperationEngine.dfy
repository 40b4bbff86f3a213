/** The Agent's operation engine as interleaved critical sections.

    `Core` is what `seenMu` and the state directory protect; `Phase` is how far the
    goroutine of one control envelope has got.  Every function named `...Section`
    is one critical section (or one step that touches no shared state) and maps the
    shared state and the caller's phase to the next ones.  `Run`s interleave them
    with crashes in any order.  Every control envelope may be delivered any number
    of times, every receipt write and read and every enqueue may fail. */
module OperationEngine {
  import opened Options
  import opened Protocol
  import opened OperationCache
  import Text

  datatype Receipt = Readable(result: OperationResult) | Corrupt

  /** `heap` holds every execution record this process created, evicted or not;
      `seen` is the lookup table.  `sent` holds every message ever queued: a
      message may be lost, delayed or repeated, also across a restart. */
  datatype Core = Core(
    heap: seq<Execution>, seen: map<OpId, nat>, disk: map<OpId, Receipt>,
    updatePending: bool, sent: set<Message>)

  datatype Phase =
    | Arrived                                               // not yet looked up
    | AwaitingDuplicate(other: nat)                         // another delivery owns the execution
    | Registered(exec: nat)                                 // registered, update gate not yet passed
    | Running(exec: nat)                                    // body, past the gate
    | Interrupting(exec: nat, other: nat)                   // operation.interrupt waits for its target
    | Stopping(exec: nat, other: nat)                       // turn interrupt waits for its target
    | Checking(exec: nat)                                   // turn interrupt, lock released, receipt not yet read
    | Staging(exec: nat)                                    // agent.update holds updatePending
    | Finished(exec: nat, result: OperationResult, staged: bool)
    | Saved(exec: nat, result: OperationResult, staged: bool, onDisk: bool)
    | Published(exec: nat, result: OperationResult, staged: bool)
    | Activating(exec: nat)                                 // about to replace the process
    | Reporting(exec: nat)                                  // activation failed, updatePending released
    | Replaying(result: OperationResult)
    | ReplayWaiting(result: OperationResult, other: nat)

  datatype Handler = Handler(env: Envelope, phase: Phase)

  datatype State = State(core: Core, handlers: map<nat, Handler>)

  /** The phases between registration and the closing of `done`. */
  predicate Holds(p: Phase) {
    p.Registered? || p.Running? || p.Interrupting? || p.Stopping? || p.Checking? || p.Staging? || p.Finished? || p.Saved?
  }

  /** The phases of an update handler that owns `updatePending`. */
  predicate OwnsUpdate(p: Phase) {
    p.Staging? || p.Activating? || ((p.Finished? || p.Saved? || p.Published?) && p.staged)
  }

  /** The kinds that refuse to run while an update is pending. */
  predicate Gated(kind: Kind) {
    || IsTurn(kind) || kind.CodexTurnStart? || kind.CodexTurnRewrite? || kind.ClaudeThreadFork? || kind.GeminiThreadFork?
    || kind.GitWorktreeCreate? || DecodedFirst(kind)
  }

  /** The gated kinds whose payload is decoded before the gate. */
  predicate DecodedFirst(kind: Kind) { kind.GeminiSkillsManage? || kind.ClaudeSkillsList? }

  /** The kinds an update waits for. */
  predicate Scanned(kind: Kind) {
    IsTurn(kind) || kind.GeminiThreadFork? || kind.GitWorktreeCreate? || kind.GeminiSkillsManage?
  }

  /** The kinds whose body is modelled step by step; every other body is one step. */
  predicate HasSteppedBody(env: Envelope) {
    env.payload.Command? && (env.kind.OperationInterrupt? || env.kind.AgentUpdate? || IsTurnInterrupt(env.kind))
  }

  // ---------------------------------------------------------------- receipts

  datatype Loaded = Missing | Found(result: OperationResult) | Unreadable

  function Load(disk: map<OpId, Receipt>, op: OpId, readable: bool): Loaded {
    if !readable then Unreadable
    else if op !in disk then Missing
    else match disk[op]
      case Readable(r) => if r.op == op then Found(r) else Unreadable
      case Corrupt => Unreadable
  }

  function Outcome(op: OpId, status: Status, note: Note, stopped: Option<OpId>): OperationResult {
    OperationResult(op, status, note, stopped)
  }

  function Failure(op: OpId): OperationResult { Outcome(op, Failed, Plain, None) }

  // ---------------------------------------------------------------- sections

  function View(core: Core): Cache
    requires forall id | id in core.seen :: core.seen[id] < |core.heap|
  {
    map id | id in core.seen :: core.heap[core.seen[id]]
  }

  /** The only evictions pruning is allowed to make. */
  predicate MayEvict(core: Core, evict: set<OpId>) {
    forall id | id in evict ::
      id in core.seen && core.seen[id] < |core.heap| && core.heap[core.seen[id]].done && core.heap[core.seen[id]].persisted
  }

  function Evict(core: Core, evict: set<OpId>): Core {
    core.(seen := core.seen - evict)
  }

  function Send(core: Core, m: Message): Core {
    core.(sent := core.sent + {m})
  }

  function NewExecution(env: Envelope): Execution {
    Execution(env.op, env.kind, false, Failure(env.op), 0, 0, false)
  }

  /** Look the operation up; wait for, replay or register it (client.go:281-313). */
  function LookupSection(core: Core, env: Envelope, evict: set<OpId>, readable: bool): (Core, Phase) {
    var c := Evict(core, evict);
    if env.op in c.seen then (c, AwaitingDuplicate(c.seen[env.op]))
    else match Load(c.disk, env.op, readable)
      case Found(r) => (c, Replaying(r))
      case Unreadable => (c, Replaying(Failure(env.op)))
      case Missing =>
        (Send(c.(heap := c.heap + [NewExecution(env)], seen := c.seen[env.op := |c.heap|]), Started(env.op)),
         Registered(|c.heap|))
  }

  /** The update gate: it reads `updatePending` after registration, in its own section.
      A malformed skill command fails before it reaches its gate. */
  function GateSection(core: Core, env: Envelope, exec: nat): (Core, Phase) {
    if Gated(env.kind) && (core.updatePending || (DecodedFirst(env.kind) && env.payload.Malformed?))
    then (core, Finished(exec, Failure(env.op), false))
    else (core, Running(exec))
  }

  datatype InterruptOutcome = Refused | Wait(other: nat) | Confirmed

  /** The critical section of `interruptOperation`, with the enqueue that follows it. */
  function InterruptSection(core: Core, env: Envelope, readable: bool, saves: bool, queues: bool, now: int)
    : (Core, InterruptOutcome)
  {
    if env.payload.Malformed? || Text.IsBlank(env.payload.target) || !CanInterruptOperation(env.payload.targetKind)
    then (core, Refused)
    else
      var target := env.payload.target;
      var answer := if queues then Confirmed else Refused;
      if target in core.seen then
        var other := core.seen[target];
        if other < |core.heap| && core.heap[other].kind == env.payload.targetKind then (core, Wait(other)) else (core, Refused)
      else match Load(core.disk, target, readable)
        case Unreadable => (core, Refused)
        case Found(r) => (if queues then Send(core, Completed(r)) else core, answer)
        case Missing =>
          if !saves then (core, Refused)
          else
            var c := AddTombstone(core, target, env.payload.targetKind, now);
            (if queues then Send(c, Completed(Tombstone(target))) else c, answer)
  }

  function Tombstone(target: OpId): OperationResult { Outcome(target, Cancelled, Plain, None) }

  function AddTombstone(core: Core, target: OpId, kind: Kind, now: int): Core {
    core.(heap := core.heap + [Execution(target, kind, true, Tombstone(target), 0, now, true)],
          seen := core.seen[target := |core.heap|],
          disk := core.disk[target := Readable(Tombstone(target))])
  }

  /** The interrupt body and the interrupt inside a replay share the section above. */
  function InterruptBodySection(core: Core, env: Envelope, exec: nat, readable: bool, saves: bool, queues: bool, now: int): (Core, Phase) {
    var (c, answer) := InterruptSection(core, env, readable, saves, queues, now);
    match answer
    case Refused => (c, Finished(exec, Failure(env.op), false))
    case Wait(other) => (c, Interrupting(exec, other))
    case Confirmed => (c, Finished(exec, Outcome(env.op, Succeeded, Plain, None), false))
  }

  function InterruptWakeSection(core: Core, env: Envelope, exec: nat, other: nat, queues: bool): (Core, Phase)
    requires other < |core.heap|
  {
    if queues
    then (Send(core, Completed(core.heap[other].result)), Finished(exec, Outcome(env.op, Succeeded, Plain, None), false))
    else (core, Finished(exec, Failure(env.op), false))
  }

  /** A turn interrupt looks its target up and then releases the lock either way. */
  function TurnLookupSection(core: Core, env: Envelope, exec: nat): (Core, Phase)
    requires env.payload.Command?
  {
    var target := env.payload.target;
    if target in core.seen && core.seen[target] < |core.heap| && InterruptMatches(env.kind, core.heap[core.seen[target]].kind)
    then (core, Stopping(exec, core.seen[target]))
    else (core, Checking(exec))
  }

  /** The receipt is read after the lock has been released. */
  function CheckReceiptSection(core: Core, env: Envelope, exec: nat, readable: bool): (Core, Phase)
    requires env.payload.Command?
  {
    match Load(core.disk, env.payload.target, readable)
    case Found(_) => (core, Finished(exec, Outcome(env.op, Succeeded, Plain, Some(env.payload.target)), false))
    case Unreadable => (core, Finished(exec, Failure(env.op), false))
    case Missing => (core, Finished(exec, Outcome(env.op, Failed, OwnershipLost, None), false))
  }

  predicate ScanFindsActive(core: Core) {
    exists id | id in core.seen ::
      core.seen[id] < |core.heap| && Scanned(core.heap[core.seen[id]].kind) && !core.heap[core.seen[id]].done
  }

  /** Scan the active executions and set the pending flag (selfupdate.go:33-50). */
  function StageScanSection(core: Core, env: Envelope, exec: nat): (Core, Phase) {
    if core.updatePending || ScanFindsActive(core) then (core, Finished(exec, Failure(env.op), false))
    else (core.(updatePending := true), Staging(exec))
  }

  datatype StageOutcome = StageFailed | AlreadyCurrent | StageReady

  /** Staging ends; the deferred release runs unless a restart path is returned. */
  function StageEndSection(core: Core, env: Envelope, exec: nat, outcome: StageOutcome): (Core, Phase) {
    match outcome
    case StageFailed => (core.(updatePending := false), Finished(exec, Failure(env.op), false))
    case AlreadyCurrent => (core.(updatePending := false), Finished(exec, Outcome(env.op, Succeeded, Plain, None), false))
    case StageReady => (core, Finished(exec, Outcome(env.op, Succeeded, Plain, None), true))
  }

  function SaveSection(core: Core, exec: nat, result: OperationResult, staged: bool, saves: bool): (Core, Phase) {
    (if saves then core.(disk := core.disk[result.op := Readable(result)]) else core, Saved(exec, result, staged, saves))
  }

  /** Publish the result, close `done` and prune (client.go:665-671). */
  function PublishSection(core: Core, exec: nat, result: OperationResult, staged: bool, onDisk: bool,
                          now: int, size: nat, evict: set<OpId>): (Core, Phase)
    requires exec < |core.heap|
  {
    var e := core.heap[exec];
    var c := core.(heap := core.heap[exec := Execution(e.op, e.kind, true, result, size, now, onDisk)]);
    (Evict(c, evict), Published(exec, result, staged))
  }

  /** Where the goroutine goes after its critical section; `Left` ends it. */
  datatype Exit = Left | Goes(phase: Phase)

  function AnnounceSection(core: Core, exec: nat, result: OperationResult, staged: bool): (Core, Exit) {
    (Send(core, Completed(result)), if staged then Goes(Activating(exec)) else Left)
  }

  function ReleaseFailedSection(core: Core, exec: nat): (Core, Phase) {
    (core.(updatePending := false), Reporting(exec))
  }

  function ReportFailedSection(core: Core, env: Envelope, exec: nat, saves: bool): Core
    requires exec < |core.heap|
  {
    var c := if saves then core.(disk := core.disk[env.op := Readable(Failure(env.op))]) else core;
    Send(c.(heap := c.heap[exec := c.heap[exec].(result := Failure(env.op))]), Completed(Failure(env.op)))
  }

  /** Replaying a result; a successful interruption is carried out again first. */
  function ReplaySection(core: Core, env: Envelope, result: OperationResult, readable: bool, saves: bool, queues: bool, now: int): (Core, Exit) {
    if env.kind.OperationInterrupt? && result.status.Succeeded? then
      var (c, answer) := InterruptSection(core, env, readable, saves, queues, now);
      match answer
      case Refused => (Send(c, Completed(result.(status := Failed))), Left)
      case Wait(other) => (c, Goes(ReplayWaiting(result, other)))
      case Confirmed => (Send(c, Completed(result)), Left)
    else (Send(core, Completed(result)), Left)
  }

  function ReplayWakeSection(core: Core, result: OperationResult, other: nat, queues: bool): Core
    requires other < |core.heap|
  {
    if queues then Send(Send(core, Completed(core.heap[other].result)), Completed(result))
    else Send(core, Completed(result.(status := Failed)))
  }

  /** A keepalive probe answers from the table and the disk under one lock. */
  function ProbeSection(core: Core, op: OpId, readable: bool): Core {
    if op in core.seen && core.seen[op] < |core.heap| then
      var e := core.heap[core.seen[op]];
      Send(core, if e.done then Completed(e.result) else OwnedActive(op))
    else match Load(core.disk, op, readable)
      case Unreadable => core
      case Found(r) => Send(core, Completed(r))
      case Missing => Send(core, OwnedLost(op))
  }

  /** How the body of an ordinary operation ended. */
  datatype BodyEnd = Completes | Errs(errCancelled: bool, ctxCancelled: bool)

  /** The status a body's end is reported with (client.go:645-654). */
  function FinishStatus(kind: Kind, end: BodyEnd): Status {
    if end.Completes? then Succeeded
    else if IsTurn(kind) && (end.errCancelled || end.ctxCancelled) then Interrupted
    else if CanInterruptOperation(kind) && end.ctxCancelled then Cancelled
    else Failed
  }

  function FinishSection(core: Core, env: Envelope, exec: nat, end: BodyEnd, note: Note): (Core, Phase) {
    (core, Finished(exec, Outcome(env.op, FinishStatus(env.kind, end), note, None), false))
  }

  /** Everything in memory goes; the disk stays, and so does what was already sent. */
  function CrashSection(core: Core): Core {
    Core([], map[], core.disk, false, core.sent)
  }

  // ------------------------------------------------------------------- steps

  datatype Step =
    | Deliver(h: nat, env: Envelope)
    | Lookup(h: nat, evict: set<OpId>, readable: bool)
    | Gate(h: nat)
    | FinishBody(h: nat, end: BodyEnd, note: Note)
    | InterruptBody(h: nat, readable: bool, saves: bool, queues: bool, now: int)
    | InterruptWake(h: nat, queues: bool)
    | TurnLookup(h: nat)
    | StopWake(h: nat)
    | GiveUp(h: nat)                                          // the 15 second deadline of an interrupt
    | CheckReceipt(h: nat, readable: bool)
    | StageScan(h: nat)
    | StageEnd(h: nat, outcome: StageOutcome)
    | Save(h: nat, saves: bool)
    | Publish(h: nat, now: int, size: nat, evict: set<OpId>)
    | Announce(h: nat)
    | ReleaseFailed(h: nat)
    | ReportFailed(h: nat, saves: bool)
    | DuplicateWake(h: nat)
    | Replay(h: nat, readable: bool, saves: bool, queues: bool, now: int)
    | ReplayWake(h: nat, queues: bool)
    | Leave(h: nat)                                           // shutdown of a waiter, or the deadline in a replay
    | Probe(op: OpId, readable: bool)
    | Prune(evict: set<OpId>)
    | DamageReceipt(op: OpId)
    | Crash

  predicate At(s: State, h: nat) { h in s.handlers }

  function Env(s: State, h: nat): Envelope requires At(s, h) { s.handlers[h].env }

  function PhaseOf(s: State, h: nat): Phase requires At(s, h) { s.handlers[h].phase }

  predicate DoneAt(core: Core, i: nat) { i < |core.heap| && core.heap[i].done }

  predicate Enabled(s: State, step: Step) {
    match step
    case Deliver(h, env) => h !in s.handlers && env.op != ""
    case Lookup(h, evict, _) => At(s, h) && PhaseOf(s, h).Arrived? && MayEvict(s.core, evict)
    case Gate(h) => At(s, h) && PhaseOf(s, h).Registered?
    case FinishBody(h, end, note) =>
      At(s, h) && PhaseOf(s, h).Running? && !HasSteppedBody(Env(s, h))
      && !note.OwnershipLost? && (end.Completes? ==> note.Plain?)
    case InterruptBody(h, _, _, _, _) =>
      At(s, h) && PhaseOf(s, h).Running? && HasSteppedBody(Env(s, h)) && Env(s, h).kind.OperationInterrupt?
    case InterruptWake(h, _) => At(s, h) && PhaseOf(s, h).Interrupting? && DoneAt(s.core, PhaseOf(s, h).other)
    case TurnLookup(h) => At(s, h) && PhaseOf(s, h).Running? && HasSteppedBody(Env(s, h)) && IsTurnInterrupt(Env(s, h).kind)
    case StopWake(h) =>
      At(s, h) && PhaseOf(s, h).Stopping? && DoneAt(s.core, PhaseOf(s, h).other) && Env(s, h).payload.Command?
    case GiveUp(h) => At(s, h) && (PhaseOf(s, h).Interrupting? || PhaseOf(s, h).Stopping?)
    case CheckReceipt(h, _) => At(s, h) && PhaseOf(s, h).Checking? && Env(s, h).payload.Command?
    case StageScan(h) => At(s, h) && PhaseOf(s, h).Running? && HasSteppedBody(Env(s, h)) && Env(s, h).kind.AgentUpdate?
    case StageEnd(h, _) => At(s, h) && PhaseOf(s, h).Staging?
    case Save(h, _) => At(s, h) && PhaseOf(s, h).Finished?
    case Publish(h, _, _, evict) =>
      && At(s, h) && PhaseOf(s, h).Saved? && PhaseOf(s, h).exec < |s.core.heap|
      && var p := PhaseOf(s, h);
         MayEvict(PublishSection(s.core, p.exec, p.result, p.staged, p.onDisk, step.now, step.size, {}).0, evict)
    case Announce(h) => At(s, h) && PhaseOf(s, h).Published?
    case ReleaseFailed(h) => At(s, h) && PhaseOf(s, h).Activating?
    case ReportFailed(h, _) => At(s, h) && PhaseOf(s, h).Reporting? && PhaseOf(s, h).exec < |s.core.heap|
    case DuplicateWake(h) => At(s, h) && PhaseOf(s, h).AwaitingDuplicate? && DoneAt(s.core, PhaseOf(s, h).other)
    case Replay(h, _, _, _, _) => At(s, h) && PhaseOf(s, h).Replaying?
    case ReplayWake(h, _) => At(s, h) && PhaseOf(s, h).ReplayWaiting? && DoneAt(s.core, PhaseOf(s, h).other)
    case Leave(h) => At(s, h) && (PhaseOf(s, h).AwaitingDuplicate? || PhaseOf(s, h).ReplayWaiting?)
    case Probe(_, _) => true
    case Prune(evict) => MayEvict(s.core, evict)
    case DamageReceipt(op) => op in s.core.disk
    case Crash => true
  }

  function Move(s: State, h: nat, to: (Core, Phase)): State
    requires At(s, h)
  {
    State(to.0, s.handlers[h := Handler(Env(s, h), to.1)])
  }

  function Part(s: State, h: nat, core: Core): State {
    State(core, s.handlers - {h})
  }

  function MoveOrPart(s: State, h: nat, to: (Core, Exit)): State
    requires At(s, h)
  {
    match to.1
    case Left => Part(s, h, to.0)
    case Goes(phase) => Move(s, h, (to.0, phase))
  }

  function Apply(s: State, step: Step): State
    requires Enabled(s, step)
  {
    match step
    case Deliver(h, env) => s.(handlers := s.handlers[h := Handler(env, Arrived)])
    case Lookup(h, evict, readable) => Move(s, h, LookupSection(s.core, Env(s, h), evict, readable))
    case Gate(h) => Move(s, h, GateSection(s.core, Env(s, h), PhaseOf(s, h).exec))
    case FinishBody(h, end, note) => Move(s, h, FinishSection(s.core, Env(s, h), PhaseOf(s, h).exec, end, note))
    case InterruptBody(h, readable, saves, queues, now) =>
      Move(s, h, InterruptBodySection(s.core, Env(s, h), PhaseOf(s, h).exec, readable, saves, queues, now))
    case InterruptWake(h, queues) =>
      Move(s, h, InterruptWakeSection(s.core, Env(s, h), PhaseOf(s, h).exec, PhaseOf(s, h).other, queues))
    case TurnLookup(h) => Move(s, h, TurnLookupSection(s.core, Env(s, h), PhaseOf(s, h).exec))
    case StopWake(h) =>
      Move(s, h, (s.core, Finished(PhaseOf(s, h).exec, Outcome(Env(s, h).op, Succeeded, Plain, Some(Env(s, h).payload.target)), false)))
    case GiveUp(h) => Move(s, h, (s.core, Finished(PhaseOf(s, h).exec, Failure(Env(s, h).op), false)))
    case CheckReceipt(h, readable) => Move(s, h, CheckReceiptSection(s.core, Env(s, h), PhaseOf(s, h).exec, readable))
    case StageScan(h) => Move(s, h, StageScanSection(s.core, Env(s, h), PhaseOf(s, h).exec))
    case StageEnd(h, outcome) => Move(s, h, StageEndSection(s.core, Env(s, h), PhaseOf(s, h).exec, outcome))
    case Save(h, saves) => Move(s, h, SaveSection(s.core, PhaseOf(s, h).exec, PhaseOf(s, h).result, PhaseOf(s, h).staged, saves))
    case Publish(h, now, size, evict) =>
      var p := PhaseOf(s, h);
      Move(s, h, PublishSection(s.core, p.exec, p.result, p.staged, p.onDisk, now, size, evict))
    case Announce(h) => MoveOrPart(s, h, AnnounceSection(s.core, PhaseOf(s, h).exec, PhaseOf(s, h).result, PhaseOf(s, h).staged))
    case ReleaseFailed(h) => Move(s, h, ReleaseFailedSection(s.core, PhaseOf(s, h).exec))
    case ReportFailed(h, saves) => Part(s, h, ReportFailedSection(s.core, Env(s, h), PhaseOf(s, h).exec, saves))
    case DuplicateWake(h) => Move(s, h, (s.core, Replaying(s.core.heap[PhaseOf(s, h).other].result)))
    case Replay(h, readable, saves, queues, now) =>
      MoveOrPart(s, h, ReplaySection(s.core, Env(s, h), PhaseOf(s, h).result, readable, saves, queues, now))
    case ReplayWake(h, queues) => Part(s, h, ReplayWakeSection(s.core, PhaseOf(s, h).result, PhaseOf(s, h).other, queues))
    case Leave(h) => Part(s, h, if PhaseOf(s, h).ReplayWaiting? then Send(s.core, Completed(PhaseOf(s, h).result.(status := Failed))) else s.core)
    case Probe(op, readable) => s.(core := ProbeSection(s.core, op, readable))
    case Prune(evict) => s.(core := Evict(s.core, evict))
    case DamageReceipt(op) => s.(core := s.core.(disk := s.core.disk[op := Corrupt]))
    case Crash => State(CrashSection(s.core), map[])
  }

  predicate Initial(s: State) {
    s.core.heap == [] && s.core.seen == map[] && !s.core.updatePending && s.core.sent == {} && s.handlers == map[]
  }

  /** A run: `states[k+1]` results from doing the enabled `steps[k]` in `states[k]`. */
  ghost predicate Run(states: seq<State>, steps: seq<Step>) {
    && |states| == |steps| + 1
    && Initial(states[0])
    && forall k | 0 <= k < |steps| :: Enabled(states[k], steps[k]) && states[k + 1] == Apply(states[k], steps[k])
  }
}
