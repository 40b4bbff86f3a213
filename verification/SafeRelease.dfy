/** The Agent's operation engine and the control plane's rows together, with a network
    that loses, delays and repeats Agent messages and with Agent crashes.  Whenever an
    Agent message ends a Claude or Gemini turn, that turn's body is over. */
module SafeRelease {
  import opened Options
  import opened Protocol
  import opened OperationCache
  import opened OperationEngine
  import opened OperationSafety
  import G = TurnOwnership

  /** `wire` holds the turn envelopes claimed, sent and not yet received or lost.  Agent
      messages are never taken off `agent.core.sent`: any of them may arrive at any
      time, again and again. */
  /** `exposed` is history: the turns whose stop was confirmed by an unlocked read of their receipt
      while an execution had not closed `done` yet. */
  datatype System = System(rows: G.Rows, agent: State, wire: set<OpId>, exposed: set<OpId>)

  datatype SysStep =
    | Send(op: OpId)                                  // flush: claim a turn and send it
    | Lose(op: OpId)
    | ReceiveTurn(h: nat, op: OpId, payload: Payload)
    | ReceiveOther(h: nat, env: Envelope)             // every other kind, any number of times
    | AgentMoves(move: Step)
    | Report(m: Message)                              // an Agent message reaches the gateway
    | Init(thread: G.ThreadId, op: OpId)
    | User(request: G.GatewayStep)                    // requests, and the interrupt that flush adds
    | AddOther(op: OpId, row: G.OpRow)                // any operation that is not a turn

  function Translate(m: Message): G.AgentMessage {
    match m
    case Started(op) => G.StartedMessage(op)
    case Completed(r) => G.ResultMessage(r)
    case OwnedActive(op) => G.OwnershipMessage(op, true)
    case OwnedLost(op) => G.OwnershipMessage(op, false)
  }

  predicate SysEnabled(y: System, step: SysStep) {
    match step
    case Send(op) => op in y.rows.ops && IsTurn(y.rows.ops[op].kind) && y.rows.ops[op].status.Queued?
    case Lose(op) => op in y.wire
    case ReceiveTurn(h, op, _) => op in y.wire && op in y.rows.ops && h !in y.agent.handlers && op != ""
    case ReceiveOther(h, env) =>
      h !in y.agent.handlers && env.op != "" && NonTurn(y, env.op) && env.kind == y.rows.ops[env.op].kind
    case AgentMoves(s) => !s.Deliver? && Enabled(y.agent, s)
    case Report(m) => m in y.agent.core.sent
    case Init(_, _) => true
    case User(s) => (s.QueueTurn? || s.RequestInterrupt? || s.FollowUp?) && G.StepEnabled(y.rows, s)
    case AddOther(op, row) => op !in y.rows.ops && !IsTurn(row.kind)
  }

  /** A turn interrupt reads its target's receipt without the lock and finds one, while an execution
      of the target is still between registration and `done`. */
  predicate UnlockedRead(s: State, step: Step, op: OpId)
    requires Enabled(s, step)
  {
    && step.CheckReceipt? && Env(s, step.h).payload.target == op
    && Load(s.core.disk, op, step.readable).Found? && !Still(s, op)
  }

  function After(y: System, step: Step): System
    requires Enabled(y.agent, step)
  {
    y.(agent := Apply(y.agent, step),
       exposed := if step.CheckReceipt? && UnlockedRead(y.agent, step, Env(y.agent, step.h).payload.target)
                  then y.exposed + {Env(y.agent, step.h).payload.target} else y.exposed)
  }

  function SysApply(y: System, step: SysStep): System
    requires SysEnabled(y, step)
  {
    match step
    case Send(op) => y.(rows := G.ClaimStep(y.rows, op), wire := y.wire + {op})
    case Lose(op) => y.(wire := y.wire - {op})
    case ReceiveTurn(h, op, payload) =>
      y.(agent := Apply(y.agent, Deliver(h, Envelope(op, y.rows.ops[op].kind, payload))), wire := y.wire - {op})
    case ReceiveOther(h, env) => y.(agent := Apply(y.agent, Deliver(h, env)))
    case AgentMoves(s) => After(y, s)
    case Report(m) => y.(rows := G.HandleStep(y.rows, Translate(m)))
    case Init(thread, op) => y.(rows := G.InitStep(y.rows, thread, op))
    case User(s) => y.(rows := G.Apply(y.rows, s))
    case AddOther(op, row) => y.(rows := y.rows.(ops := y.rows.ops[op := row]))
  }

  // ----------------------------------------------------------------- invariant

  predicate NonTurn(y: System, op: OpId) { op in y.rows.ops && !IsTurn(y.rows.ops[op].kind) }

  predicate Claimed(y: System, op: OpId) {
    op in y.rows.ops && IsTurn(y.rows.ops[op].kind) && !y.rows.ops[op].status.Queued?
  }

  predicate NoArrival(s: State, op: OpId) {
    forall h | h in s.handlers && s.handlers[h].env.op == op :: !s.handlers[h].phase.Arrived?
  }

  /** The operation can never start again. */
  predicate Spent(y: System, op: OpId) {
    op in y.agent.core.disk || (Claimed(y, op) && op !in y.wire && NoArrival(y.agent, op))
  }

  predicate PastReceipt(p: Phase) { p.Saved? && p.onDisk }

  /** No execution lies between registration and `done`, save one whose receipt is on disk. */
  predicate Quiet(s: State, op: OpId) {
    forall h | h in s.handlers && s.handlers[h].env.op == op && Holds(s.handlers[h].phase) :: PastReceipt(s.handlers[h].phase)
  }

  /** No execution lies between registration and `done` at all. */
  predicate Still(s: State, op: OpId) {
    forall h | h in s.handlers && s.handlers[h].env.op == op :: !Holds(s.handlers[h].phase)
  }

  predicate Safe(y: System, op: OpId) { Quiet(y.agent, op) && Spent(y, op) }

  /** What a result of the operation itself promises. */
  predicate Over(y: System, op: OpId) { NonTurn(y, op) || (Still(y.agent, op) && Spent(y, op)) }

  /** What a termination receipt for the operation promises. */
  predicate Stopped(y: System, op: OpId) {
    NonTurn(y, op) || (Safe(y, op) && (op in y.exposed || Still(y.agent, op)))
  }

  /** A receipt appears no earlier than the end of the body. */
  predicate NoEarlyReceipt(s: State) {
    forall h | h in s.handlers && Holds(s.handlers[h].phase) && !PastReceipt(s.handlers[h].phase) ::
      s.handlers[h].env.op !in s.core.disk
  }

  predicate WireSound(y: System) {
    forall op | op in y.wire :: Claimed(y, op) && forall h | h in y.agent.handlers :: y.agent.handlers[h].env.op != op
  }

  /** A turn reaches the Agent at most once. */
  predicate HandlersOnce(y: System) {
    && (forall h | h in y.agent.handlers :: NonTurn(y, y.agent.handlers[h].env.op) || Claimed(y, y.agent.handlers[h].env.op))
    && (forall g, h | g in y.agent.handlers && h in y.agent.handlers && y.agent.handlers[g].env.op == y.agent.handlers[h].env.op ::
          g == h || NonTurn(y, y.agent.handlers[g].env.op))
  }

  predicate RecordsSpent(y: System) {
    forall i: nat | i < |y.agent.core.heap| :: NonTurn(y, y.agent.core.heap[i].op) || Spent(y, y.agent.core.heap[i].op)
  }

  /** A termination receipt only ever names an operation that is over for good. */
  predicate ReceiptTrue(y: System, r: OperationResult) {
    r.stopped.Some? ==> Stopped(y, r.stopped.value)
  }

  predicate CarriesResult(p: Phase) {
    p.Finished? || p.Saved? || p.Published? || p.Replaying? || p.ReplayWaiting?
  }

  predicate HandlerTrue(y: System, hd: Handler) {
    && (CarriesResult(hd.phase) ==> ReceiptTrue(y, hd.phase.result))
    && (hd.phase.Replaying? || hd.phase.ReplayWaiting? ==> Over(y, hd.env.op))
  }

  predicate MessageTrue(y: System, m: Message) {
    m.Completed? ==> ReceiptTrue(y, m.result) && Over(y, m.result.op)
  }

  predicate ReceiptsTrue(y: System) {
    && (forall op | op in y.agent.core.disk && y.agent.core.disk[op].Readable? :: ReceiptTrue(y, y.agent.core.disk[op].result))
    && (forall i: nat | i < |y.agent.core.heap| :: ReceiptTrue(y, y.agent.core.heap[i].result))
    && (forall h | h in y.agent.handlers :: HandlerTrue(y, y.agent.handlers[h]))
    && (forall m | m in y.agent.core.sent :: MessageTrue(y, m))
  }

  ghost predicate SysInv(y: System) {
    Inv(y.agent) && NoEarlyReceipt(y.agent) && WireSound(y) && HandlersOnce(y) && RecordsSpent(y) && ReceiptsTrue(y)
  }

  // --------------------------------------------------------- two sources of safety

  lemma OnDiskIsSafe(y: System, op: OpId)
    requires NoEarlyReceipt(y.agent) && op in y.agent.core.disk
    ensures Safe(y, op)
  {
  }

  lemma HolderHasNoDoneRecord(s: State, i: nat, h: nat)
    requires Inv(s) && i < |s.core.heap| && s.core.heap[i].done && h in s.handlers
    ensures Holds(s.handlers[h].phase) ==> s.handlers[h].env.op != s.core.heap[i].op
  {
    assert HandlerSound(s.core, s.handlers[h]);
    if Holds(s.handlers[h].phase) {
      var j := s.handlers[h].phase.exec;
      assert !s.core.heap[j].done && s.core.heap[j].op == s.handlers[h].env.op;
      assert i < j || j < i;
    }
  }

  lemma DoneRecordIsStill(s: State, i: nat)
    requires Inv(s) && i < |s.core.heap| && s.core.heap[i].done
    ensures Still(s, s.core.heap[i].op)
  {
    forall h | h in s.handlers ensures Holds(s.handlers[h].phase) ==> s.handlers[h].env.op != s.core.heap[i].op {
      HolderHasNoDoneRecord(s, i, h);
    }
  }

  lemma DoneRecordIsOver(y: System, i: nat)
    requires Inv(y.agent) && RecordsSpent(y) && i < |y.agent.core.heap| && y.agent.core.heap[i].done
    ensures Over(y, y.agent.core.heap[i].op) && Stopped(y, y.agent.core.heap[i].op)
  {
    DoneRecordIsStill(y.agent, i);
  }

  lemma UnseenIsStill(s: State, op: OpId)
    requires Inv(s) && op !in s.core.seen
    ensures Still(s, op)
  {
    forall h | h in s.handlers && s.handlers[h].env.op == op ensures !Holds(s.handlers[h].phase) {
      if Holds(s.handlers[h].phase) { HolderIsSeen(s, h); }
    }
  }

  // ------------------------------------------------ what an Agent step can change

  /** Where a handler's phase after a step comes from. */
  lemma PhaseOrigin(s: State, step: Step, h: nat)
    requires Enabled(s, step) && !step.Deliver? && h in Apply(s, step).handlers
    ensures h in s.handlers && Apply(s, step).handlers[h].env == s.handlers[h].env
    ensures var p, q := s.handlers[h].phase, Apply(s, step).handlers[h].phase;
            p == q || (
              && !q.Arrived?
              && (Holds(q) ==> (p.Arrived? && q.Registered? && s.handlers[h].env.op !in s.core.disk) || (Holds(p) && !p.Saved?))
              && (Holds(q) && !Holds(p) ==> step.Lookup?)
              && (q.Saved? ==> p.Finished? && step == Save(h, q.onDisk)))
  {
  }

  /** Whose receipt a step may add to the disk. */
  lemma DiskAdds(s: State, step: Step, op: OpId)
    requires HandlersSound(s) && Enabled(s, step) && op in Apply(s, step).core.disk && op !in s.core.disk
    ensures || op !in s.core.seen
            || (step.Save? && step.saves && At(s, step.h) && Env(s, step.h).op == op)
            || (step.ReportFailed? && At(s, step.h) && Env(s, step.h).op == op)
  {
    hide InterruptSection, LookupSection, PublishSection, ProbeSection, CheckReceiptSection, HandlersSound;
    if step.Save? || step.ReportFailed? {
      OwnReceiptAdds(s, step, op);
    } else if step.InterruptBody? || step.Replay? {
      InterruptSectionAdds(s.core, Env(s, step.h), step.readable, step.saves, step.queues, step.now, op);
    } else if !step.DamageReceipt? {
      OthersKeepReceipts(s, step);
    }
  }

  lemma OwnReceiptAdds(s: State, step: Step, op: OpId)
    requires HandlersSound(s) && Enabled(s, step) && (step.Save? || step.ReportFailed?)
    requires op in Apply(s, step).core.disk && op !in s.core.disk
    ensures op == Env(s, step.h).op && (step.Save? ==> step.saves)
  {
    assert HandlerSound(s.core, s.handlers[step.h]);
  }

  lemma InterruptSectionAdds(core: Core, env: Envelope, readable: bool, saves: bool, queues: bool, now: int, op: OpId)
    ensures op in InterruptSection(core, env, readable, saves, queues, now).0.disk ==> op in core.disk || op !in core.seen
  {
  }

  /** A holder's operation is in the table, and nobody else holds it. */
  lemma HolderIsSeen(s: State, h: nat)
    requires Inv(s) && h in s.handlers && Holds(s.handlers[h].phase)
    ensures s.handlers[h].env.op in s.core.seen
    ensures forall g | g in s.handlers && s.handlers[g].env.op == s.handlers[h].env.op && Holds(s.handlers[g].phase) :: g == h
  {
    assert HandlerSound(s.core, s.handlers[h]);
    var i := s.handlers[h].phase.exec;
    assert RecordSound(s.core, i);
    forall g | g in s.handlers && s.handlers[g].env.op == s.handlers[h].env.op && Holds(s.handlers[g].phase) ensures g == h {
      assert HandlerSound(s.core, s.handlers[g]);
      var j := s.handlers[g].phase.exec;
      assert s.core.heap[j].op == s.core.heap[i].op;
      assert i < j || j < i || i == j;
    }
  }

  lemma NoEarlyReceiptStays(s: State, step: Step)
    requires Inv(s) && NoEarlyReceipt(s) && Enabled(s, step)
    ensures NoEarlyReceipt(Apply(s, step))
  {
    if !step.Deliver? {
      var t := Apply(s, step);
      forall h | h in t.handlers && Holds(t.handlers[h].phase) && !PastReceipt(t.handlers[h].phase)
        ensures t.handlers[h].env.op !in t.core.disk
      {
        NoEarlyReceiptFor(s, step, h);
      }
    }
  }

  lemma NoEarlyReceiptFor(s: State, step: Step, h: nat)
    requires Inv(s) && NoEarlyReceipt(s) && Enabled(s, step) && !step.Deliver?
    requires var t := Apply(s, step); h in t.handlers && Holds(t.handlers[h].phase) && !PastReceipt(t.handlers[h].phase)
    ensures Apply(s, step).handlers[h].env.op !in Apply(s, step).core.disk
  {
    PhaseOrigin(s, step, h);
    var op := s.handlers[h].env.op;
    if Holds(s.handlers[h].phase) {
      HolderIsSeen(s, h);
      if step.ReportFailed? {
        assert HandlerSound(s.core, s.handlers[step.h]);
        HolderHasNoDoneRecord(s, PhaseOf(s, step.h).exec, h);
      }
    }
    if op in Apply(s, step).core.disk {
      DiskAdds(s, step, op);
      assert false;
    }
  }

  lemma QuietStays(s: State, step: Step, op: OpId)
    requires Enabled(s, step) && !step.Deliver? && Quiet(s, op)
    requires op in s.core.disk || NoArrival(s, op)
    ensures Quiet(Apply(s, step), op)
  {
    var t := Apply(s, step);
    forall h | h in t.handlers && t.handlers[h].env.op == op && Holds(t.handlers[h].phase)
      ensures PastReceipt(t.handlers[h].phase)
    {
      PhaseOrigin(s, step, h);
    }
  }

  lemma StillStays(s: State, step: Step, op: OpId)
    requires Enabled(s, step) && !step.Deliver? && Still(s, op)
    requires op in s.core.disk || NoArrival(s, op) || !step.Lookup?
    ensures Still(Apply(s, step), op)
  {
    var t := Apply(s, step);
    forall h | h in t.handlers && t.handlers[h].env.op == op ensures !Holds(t.handlers[h].phase) {
      PhaseOrigin(s, step, h);
    }
  }

  lemma NoArrivalStays(s: State, step: Step, op: OpId)
    requires Enabled(s, step) && !step.Deliver? && NoArrival(s, op)
    ensures NoArrival(Apply(s, step), op)
  {
    var t := Apply(s, step);
    forall h | h in t.handlers && t.handlers[h].env.op == op ensures !t.handlers[h].phase.Arrived? {
      PhaseOrigin(s, step, h);
    }
  }

  /** Being safe survives every step of the Agent, crashes included. */
  lemma SafetySurvivesAgent(y: System, step: Step, op: OpId)
    requires Enabled(y.agent, step) && !step.Deliver?
    ensures Spent(y, op) ==> Spent(After(y, step), op)
    ensures Over(y, op) ==> Over(After(y, step), op)
    ensures Stopped(y, op) ==> Stopped(After(y, step), op)
  {
    hide Apply, UnlockedRead;
    if Spent(y, op) {
      ReceiptsGrow(y.agent, step);
      if NoArrival(y.agent, op) { NoArrivalStays(y.agent, step, op); }
      if Safe(y, op) { QuietStays(y.agent, step, op); }
      if Still(y.agent, op) { StillStays(y.agent, step, op); }
    }
  }

  lemma ReceiptsGrow(s: State, step: Step)
    requires Enabled(s, step)
    ensures s.core.disk.Keys <= Apply(s, step).core.disk.Keys
  {
    if step.InterruptBody? || step.Replay? {
      InterruptSectionKeepsReceipts(s.core, Env(s, step.h), step.readable, step.saves, step.queues, step.now);
    } else if !step.Save? && !step.ReportFailed? && !step.DamageReceipt? {
      OthersKeepReceipts(s, step);
    }
  }

  lemma InterruptSectionKeepsReceipts(core: Core, env: Envelope, readable: bool, saves: bool, queues: bool, now: int)
    ensures core.disk.Keys <= InterruptSection(core, env, readable, saves, queues, now).0.disk.Keys
  {
  }

  // --------------------------------------------- new messages and results are true

  /** The result is one the Agent may already have sent, or the tombstone of an operation
      that the step has just put on disk. */
  predicate SoundResult(y: System, after: Core, r: OperationResult) {
    MessageTrue(y, Completed(r)) || (r == Tombstone(r.op) && r.op in after.disk && r.op !in y.agent.core.seen)
  }

  lemma LoadedIsTrue(y: System, op: OpId, readable: bool)
    requires SysInv(y) && Load(y.agent.core.disk, op, readable).Found? && Still(y.agent, op)
    ensures MessageTrue(y, Completed(Load(y.agent.core.disk, op, readable).result))
  {
  }

  lemma DoneResultIsTrue(y: System, i: nat)
    requires SysInv(y) && DoneAt(y.agent.core, i)
    ensures MessageTrue(y, Completed(y.agent.core.heap[i].result))
  {
    DoneRecordIsOver(y, i);
    assert RecordSound(y.agent.core, i);
  }

  lemma InterruptSectionSends(y: System, env: Envelope, readable: bool, saves: bool, queues: bool, now: int, m: Message)
    requires SysInv(y)
    requires var c := InterruptSection(y.agent.core, env, readable, saves, queues, now).0;
             m in c.sent && m !in y.agent.core.sent
    ensures m.Completed? && SoundResult(y, InterruptSection(y.agent.core, env, readable, saves, queues, now).0, m.result)
  {
    var target := env.payload.target;
    if target !in y.agent.core.seen {
      UnseenIsStill(y.agent, target);
      if Load(y.agent.core.disk, target, readable).Found? { LoadedIsTrue(y, target, readable); }
    }
  }

  /** Every message a step adds is a start, an ownership reply or a sound result. */
  lemma NewMessageIsSound(y: System, step: Step, m: Message)
    requires SysInv(y) && Enabled(y.agent, step) && !step.Deliver?
    requires m in Apply(y.agent, step).core.sent && m !in y.agent.core.sent && m.Completed?
    ensures SoundResult(y, Apply(y.agent, step).core, m.result)
  {
    hide SysInv, InterruptSection, LookupSection, PublishSection, ProbeSection;
    if step.InterruptBody? {
      InterruptSectionSends(y, Env(y.agent, step.h), step.readable, step.saves, step.queues, step.now, m);
    } else if step.Replay? {
      ReplaySends(y, step, m);
    } else if step.Probe? {
      ProbeSends(y, step, m);
    } else if step.InterruptWake? || step.ReplayWake? || step.Announce? || step.ReportFailed? || step.Leave? {
      LaterSends(y, step, m);
    } else {
      OthersSendNoResult(y.agent, step, m);
      assert false;
    }
  }

  lemma LaterSends(y: System, step: Step, m: Message)
    requires SysInv(y) && Enabled(y.agent, step)
    requires step.InterruptWake? || step.ReplayWake? || step.Announce? || step.ReportFailed? || step.Leave?
    requires m in Apply(y.agent, step).core.sent && m !in y.agent.core.sent && m.Completed?
    ensures MessageTrue(y, m)
  {
    HandlerFacts(y, step.h);
    if step.InterruptWake? || step.ReplayWake? {
      DoneResultIsTrue(y, PhaseOf(y.agent, step.h).other);
      WakeSends(y.agent, step, m);
    } else if step.Announce? || step.ReportFailed? {
      DoneRecordIsOver(y, PhaseOf(y.agent, step.h).exec);
    }
  }

  lemma WakeSends(s: State, step: Step, m: Message)
    requires Enabled(s, step) && (step.InterruptWake? || step.ReplayWake?)
    requires m in Apply(s, step).core.sent && m !in s.core.sent
    ensures var p := PhaseOf(s, step.h);
            || m == Completed(s.core.heap[p.other].result)
            || (step.ReplayWake? && (m == Completed(p.result) || m == Completed(p.result.(status := Failed))))
  {
  }

  lemma ReplaySends(y: System, step: Step, m: Message)
    requires SysInv(y) && Enabled(y.agent, step) && step.Replay?
    requires m in Apply(y.agent, step).core.sent && m !in y.agent.core.sent && m.Completed?
    ensures SoundResult(y, Apply(y.agent, step).core, m.result)
  {
    var s, hd := y.agent, y.agent.handlers[step.h];
    HandlerFacts(y, step.h);
    var (c, answer) := InterruptSection(s.core, hd.env, step.readable, step.saves, step.queues, step.now);
    if m in c.sent && hd.env.kind.OperationInterrupt? && hd.phase.result.status.Succeeded? {
      InterruptSectionSends(y, hd.env, step.readable, step.saves, step.queues, step.now, m);
      assert Apply(s, step).core.disk == c.disk;
    } else {
      ReplaySendsOwnResult(s, step, m);
    }
  }

  lemma ReplaySendsOwnResult(s: State, step: Step, m: Message)
    requires Enabled(s, step) && step.Replay? && m in Apply(s, step).core.sent && m !in s.core.sent
    requires var hd := s.handlers[step.h];
             hd.env.kind.OperationInterrupt? && hd.phase.result.status.Succeeded? ==>
             m !in InterruptSection(s.core, hd.env, step.readable, step.saves, step.queues, step.now).0.sent
    ensures m == Completed(PhaseOf(s, step.h).result) || m == Completed(PhaseOf(s, step.h).result.(status := Failed))
  {
  }

  lemma HandlerFacts(y: System, h: nat)
    requires SysInv(y) && h in y.agent.handlers
    ensures HandlerTrue(y, y.agent.handlers[h]) && HandlerSound(y.agent.core, y.agent.handlers[h])
  {
  }

  lemma ProbeSends(y: System, step: Step, m: Message)
    requires SysInv(y) && step.Probe?
    requires m in ProbeSection(y.agent.core, step.op, step.readable).sent && m !in y.agent.core.sent && m.Completed?
    ensures MessageTrue(y, m)
  {
    var core := y.agent.core;
    if step.op in core.seen && core.seen[step.op] < |core.heap| {
      DoneResultIsTrue(y, core.seen[step.op]);
    } else if Load(core.disk, step.op, step.readable).Found? {
      UnseenIsStill(y.agent, step.op);
      LoadedIsTrue(y, step.op, step.readable);
    }
  }

  lemma OthersSendNoResult(s: State, step: Step, m: Message)
    requires Enabled(s, step) && !step.InterruptBody? && !step.InterruptWake? && !step.Replay? && !step.ReplayWake?
    requires !step.Announce? && !step.ReportFailed? && !step.Leave? && !step.Probe?
    ensures m in Apply(s, step).core.sent && m !in s.core.sent ==> m.Started?
  {
  }

  // ------------------------------------------------- every step keeps the invariant

  /** The only handler of a turn has been looked up: nothing can start it any more. */
  lemma LookedUpIsSpent(y: System, h: nat, evict: set<OpId>, readable: bool)
    requires SysInv(y) && Enabled(y.agent, Lookup(h, evict, readable))
    ensures var op := Env(y.agent, h).op;
            NonTurn(y, op) || Spent(After(y, Lookup(h, evict, readable)), op)
    ensures var op, t := Env(y.agent, h).op, Apply(y.agent, Lookup(h, evict, readable));
            NonTurn(y, op) || forall g | g in t.handlers && t.handlers[g].env.op == op :: g == h
  {
    var op, t := Env(y.agent, h).op, Apply(y.agent, Lookup(h, evict, readable));
    if !NonTurn(y, op) {
      forall g | g in t.handlers && t.handlers[g].env.op == op ensures g == h {
        assert g in y.agent.handlers && y.agent.handlers[g].env.op == op;
      }
      assert Claimed(y, op) && op !in y.wire;
    }
  }

  lemma LookupHandlerTrue(y: System, h: nat, evict: set<OpId>, readable: bool)
    requires SysInv(y) && Enabled(y.agent, Lookup(h, evict, readable))
    ensures HandlerTrue(After(y, Lookup(h, evict, readable)), Apply(y.agent, Lookup(h, evict, readable)).handlers[h])
  {
    var step := Lookup(h, evict, readable);
    var op := Env(y.agent, h).op;
    var q := Apply(y.agent, step).handlers[h].phase;
    LookedUpIsSpent(y, h, evict, readable);
    if q.Replaying? {
      UnlistedIsStill(y.agent, h, evict, readable);
      if Load(y.agent.core.disk, op, readable).Found? {
        LoadedIsTrue(y, op, readable);
        var r := Load(y.agent.core.disk, op, readable).result;
        if r.stopped.Some? { SafetySurvivesAgent(y, step, r.stopped.value); }
      }
      assert Still(Apply(y.agent, step), op);
    }
  }

  /** A result is replayed only for an operation that nothing in memory holds. */
  lemma UnlistedIsStill(s: State, h: nat, evict: set<OpId>, readable: bool)
    requires Inv(s) && Enabled(s, Lookup(h, evict, readable))
    requires Apply(s, Lookup(h, evict, readable)).handlers[h].phase.Replaying?
    ensures Still(s, Env(s, h).op) && Still(Apply(s, Lookup(h, evict, readable)), Env(s, h).op)
  {
    var op := Env(s, h).op;
    if op in s.core.seen {
      assert op in evict;
      DoneRecordIsStill(s, s.core.seen[op]);
    } else {
      UnseenIsStill(s, op);
    }
  }

  lemma StopHandlerTrue(y: System, step: Step)
    requires SysInv(y) && Enabled(y.agent, step) && (step.StopWake? || step.CheckReceipt?)
    ensures HandlerTrue(After(y, step), Apply(y.agent, step).handlers[step.h])
  {
    var target := Env(y.agent, step.h).payload.target;
    HandlerFacts(y, step.h);
    if step.StopWake? {
      DoneRecordIsOver(y, PhaseOf(y.agent, step.h).other);
    } else if target in y.agent.core.disk {
      OnDiskIsSafe(y, target);
    }
    SafetySurvivesAgent(y, step, target);
  }

  lemma DuplicateHandlerTrue(y: System, h: nat)
    requires SysInv(y) && Enabled(y.agent, DuplicateWake(h))
    ensures HandlerTrue(After(y, DuplicateWake(h)), Apply(y.agent, DuplicateWake(h)).handlers[h])
  {
    HandlerFacts(y, h);
    var r := y.agent.core.heap[PhaseOf(y.agent, h).other].result;
    DoneResultIsTrue(y, PhaseOf(y.agent, h).other);
    DoneRecordIsOver(y, PhaseOf(y.agent, h).other);
    SafetySurvivesAgent(y, DuplicateWake(h), Env(y.agent, h).op);
    if r.stopped.Some? { SafetySurvivesAgent(y, DuplicateWake(h), r.stopped.value); }
  }

  /** The remaining moves keep the result they carry, or carry one without a receipt. */
  lemma OtherMoveKeepsResult(s: State, step: Step, h: nat)
    requires Enabled(s, step) && !step.Deliver? && h in Apply(s, step).handlers
    requires !step.Lookup? && !step.StopWake? && !step.CheckReceipt? && !step.DuplicateWake?
    ensures var p, q := s.handlers[h].phase, Apply(s, step).handlers[h].phase;
            && (CarriesResult(q) ==> q.result.stopped.None? || (CarriesResult(p) && q.result.stopped == p.result.stopped))
            && (q.Replaying? || q.ReplayWaiting? ==> p.Replaying? || p.ReplayWaiting?)
  {
  }

  lemma HandlerStaysTrue(y: System, step: Step, h: nat)
    requires SysInv(y) && Enabled(y.agent, step) && !step.Deliver? && h in Apply(y.agent, step).handlers
    ensures HandlerTrue(After(y, step), Apply(y.agent, step).handlers[h])
  {
    PhaseOrigin(y.agent, step, h);
    HandlerFacts(y, h);
    var p, q := y.agent.handlers[h].phase, Apply(y.agent, step).handlers[h].phase;
    if p == q {
      CarrySafety(y, step, y.agent.handlers[h]);
    } else if step.Lookup? {
      LookupHandlerTrue(y, h, step.evict, step.readable);
    } else if step.StopWake? || step.CheckReceipt? {
      StopHandlerTrue(y, step);
    } else if step.DuplicateWake? {
      DuplicateHandlerTrue(y, h);
    } else {
      OtherMoveKeepsResult(y.agent, step, h);
      CarrySafety(y, step, y.agent.handlers[h]);
    }
  }

  lemma CarrySafety(y: System, step: Step, hd: Handler)
    requires Enabled(y.agent, step) && !step.Deliver? && HandlerTrue(y, hd)
    ensures HandlerTrue(After(y, step), hd)
  {
    SafetySurvivesAgent(y, step, hd.env.op);
    if CarriesResult(hd.phase) && hd.phase.result.stopped.Some? {
      SafetySurvivesAgent(y, step, hd.phase.result.stopped.value);
    }
  }

  /** The receipts a step leaves on disk: old ones, the saved result, or none with a stop. */
  ghost predicate DiskFrom(s: State, step: Step, after: map<OpId, Receipt>, op: OpId)
    requires Enabled(s, step)
  {
    op in after && after[op].Readable? ==>
      var r := after[op].result;
      || r.stopped.None?
      || (op in s.core.disk && s.core.disk[op] == Readable(r))
      || (step.Save? && r == PhaseOf(s, step.h).result)
  }

  lemma DiskOrigin(s: State, step: Step, op: OpId)
    requires Enabled(s, step)
    ensures DiskFrom(s, step, Apply(s, step).core.disk, op)
  {
    if step.Save? || step.ReportFailed? || step.DamageReceipt? {
    } else if step.InterruptBody? || step.Replay? {
      InterruptSectionReceipts(s.core, Env(s, step.h), step.readable, step.saves, step.queues, step.now, op);
    } else {
      OthersKeepReceipts(s, step);
    }
  }

  lemma InterruptSectionReceipts(core: Core, env: Envelope, readable: bool, saves: bool, queues: bool, now: int, op: OpId)
    ensures var d := InterruptSection(core, env, readable, saves, queues, now).0.disk;
            op in d ==> d[op] == Readable(Tombstone(op)) || (op in core.disk && d[op] == core.disk[op])
  {
  }

  lemma OthersKeepReceipts(s: State, step: Step)
    requires Enabled(s, step) && !step.Save? && !step.ReportFailed? && !step.DamageReceipt? && !step.InterruptBody? && !step.Replay?
    ensures Apply(s, step).core.disk == s.core.disk
  {
  }

  predicate ChangesHeap(step: Step) {
    step.Lookup? || step.InterruptBody? || step.Replay? || step.Publish? || step.ReportFailed? || step.Crash?
  }

  lemma OthersKeepHeap(s: State, step: Step)
    requires Enabled(s, step) && !ChangesHeap(step)
    ensures Apply(s, step).core.heap == s.core.heap
  {
  }

  lemma InterruptSectionHeap(core: Core, env: Envelope, readable: bool, saves: bool, queues: bool, now: int)
    ensures var c := InterruptSection(core, env, readable, saves, queues, now).0;
            c.heap == core.heap ||
            (|c.heap| == |core.heap| + 1 && c.heap[..|core.heap|] == core.heap
             && c.heap[|core.heap|].result.stopped.None? && c.heap[|core.heap|].op in c.disk)
  {
  }

  /** Where the records and results of the heap come from. */
  ghost predicate HeapFrom(s: State, step: Step, after: Core, i: nat)
    requires Enabled(s, step)
  {
    i < |after.heap| ==>
      var e := after.heap[i];
      && (e.result.stopped.None? || (i < |s.core.heap| && s.core.heap[i].result == e.result)
          || (step.Publish? && e.result == PhaseOf(s, step.h).result))
      && ((i < |s.core.heap| && s.core.heap[i].op == e.op) || e.op in after.disk || (step.Lookup? && e.op == Env(s, step.h).op))
  }

  lemma PlainHeapSteps(s: State, step: Step, i: nat)
    requires Enabled(s, step) && (step.Lookup? || step.Publish? || step.ReportFailed? || step.Crash?)
    ensures HeapFrom(s, step, Apply(s, step).core, i)
  {
  }

  lemma HeapOrigin(s: State, step: Step, i: nat)
    requires Enabled(s, step)
    ensures HeapFrom(s, step, Apply(s, step).core, i)
  {
    if step.InterruptBody? || step.Replay? {
      InterruptSectionHeap(s.core, Env(s, step.h), step.readable, step.saves, step.queues, step.now);
    } else if !ChangesHeap(step) {
      OthersKeepHeap(s, step);
    } else {
      PlainHeapSteps(s, step, i);
    }
  }

  lemma ResultStaysTrue(y: System, step: Step, r: OperationResult)
    requires Enabled(y.agent, step) && !step.Deliver? && ReceiptTrue(y, r)
    ensures ReceiptTrue(After(y, step), r)
  {
    if r.stopped.Some? { SafetySurvivesAgent(y, step, r.stopped.value); }
  }

  lemma StoredResultsStayTrue(y: System, step: Step)
    requires SysInv(y) && Enabled(y.agent, step) && !step.Deliver?
    ensures var z := After(y, step);
            && (forall op | op in z.agent.core.disk && z.agent.core.disk[op].Readable? :: ReceiptTrue(z, z.agent.core.disk[op].result))
            && (forall i: nat | i < |z.agent.core.heap| :: ReceiptTrue(z, z.agent.core.heap[i].result))
  {
    var z := After(y, step);
    forall op | op in z.agent.core.disk && z.agent.core.disk[op].Readable? ensures ReceiptTrue(z, z.agent.core.disk[op].result) {
      DiskOrigin(y.agent, step, op);
      if step.Save? { HandlerFacts(y, step.h); ResultStaysTrue(y, step, PhaseOf(y.agent, step.h).result); }
      if op in y.agent.core.disk && y.agent.core.disk[op].Readable? { ResultStaysTrue(y, step, y.agent.core.disk[op].result); }
    }
    forall i: nat | i < |z.agent.core.heap| ensures ReceiptTrue(z, z.agent.core.heap[i].result) {
      HeapOrigin(y.agent, step, i);
      if step.Publish? { HandlerFacts(y, step.h); ResultStaysTrue(y, step, PhaseOf(y.agent, step.h).result); }
      if i < |y.agent.core.heap| { ResultStaysTrue(y, step, y.agent.core.heap[i].result); }
    }
  }

  lemma MessagesStayTrue(y: System, step: Step)
    requires SysInv(y) && Enabled(y.agent, step) && !step.Deliver?
    ensures forall m | m in Apply(y.agent, step).core.sent :: MessageTrue(After(y, step), m)
  {
    NoEarlyReceiptStays(y.agent, step);
    forall m | m in Apply(y.agent, step).core.sent ensures MessageTrue(After(y, step), m) {
      if m.Completed? {
        if m !in y.agent.core.sent { NewMessageIsSound(y, step, m); }
        if MessageTrue(y, m) {
          ResultStaysTrue(y, step, m.result);
          SafetySurvivesAgent(y, step, m.result.op);
        } else {
          UnseenIsStill(y.agent, m.result.op);
          StillStays(y.agent, step, m.result.op);
        }
      }
    }
  }

  lemma RecordsStaySpent(y: System, step: Step)
    requires SysInv(y) && Enabled(y.agent, step) && !step.Deliver?
    ensures RecordsSpent(After(y, step))
  {
    var z := After(y, step);
    forall i: nat | i < |z.agent.core.heap| ensures NonTurn(z, z.agent.core.heap[i].op) || Spent(z, z.agent.core.heap[i].op) {
      HeapOrigin(y.agent, step, i);
      SafetySurvivesAgent(y, step, z.agent.core.heap[i].op);
      if step.Lookup? { LookedUpIsSpent(y, step.h, step.evict, step.readable); }
    }
  }

  lemma HandlersStayOnce(y: System, step: Step)
    requires WireSound(y) && HandlersOnce(y) && Enabled(y.agent, step) && !step.Deliver?
    ensures WireSound(After(y, step)) && HandlersOnce(After(y, step))
  {
    var t := Apply(y.agent, step);
    forall h | h in t.handlers ensures h in y.agent.handlers && t.handlers[h].env == y.agent.handlers[h].env {
      PhaseOrigin(y.agent, step, h);
    }
  }

  lemma AgentMoveKeepsSysInv(y: System, step: Step)
    requires SysInv(y) && Enabled(y.agent, step) && !step.Deliver?
    ensures SysInv(After(y, step))
  {
    StepKeepsInv(y.agent, step);
    NoEarlyReceiptStays(y.agent, step);
    HandlersStayOnce(y, step);
    RecordsStaySpent(y, step);
    StoredResultsStayTrue(y, step);
    MessagesStayTrue(y, step);
    forall h | h in Apply(y.agent, step).handlers ensures HandlerTrue(After(y, step), Apply(y.agent, step).handlers[h]) {
      HandlerStaysTrue(y, step, h);
    }
  }

  // ---------------------------------------------- steps of the network and the gateway

  /** Safety is kept by anything that keeps the Agent's shared state, adds no arrival of
      the operation, keeps claims and plain kinds, and puts no claimed turn on the wire. */
  ghost predicate Calm(y: System, z: System) {
    && z.agent.core == y.agent.core && z.exposed == y.exposed
    && (forall op | NonTurn(y, op) :: NonTurn(z, op))
    && (forall op | Claimed(y, op) :: Claimed(z, op) && (op in z.wire ==> op in y.wire))
    && (forall op | Claimed(y, op) && op !in y.wire && NoArrival(y.agent, op) :: NoArrival(z.agent, op))
    && (forall op | Quiet(y.agent, op) :: Quiet(z.agent, op))
    && (forall op | Still(y.agent, op) :: Still(z.agent, op))
  }

  lemma CalmKeepsTruth(y: System, z: System)
    requires Calm(y, z) && RecordsSpent(y) && ReceiptsTrue(y)
    requires forall h | h in z.agent.handlers ::
               (h in y.agent.handlers && z.agent.handlers[h] == y.agent.handlers[h]) || z.agent.handlers[h].phase.Arrived?
    ensures RecordsSpent(z) && ReceiptsTrue(z)
  {
    forall op | Over(y, op) ensures Over(z, op) { }
    forall op | Stopped(y, op) ensures Stopped(z, op) { }
    forall m | m in z.agent.core.sent ensures MessageTrue(z, m) { assert MessageTrue(y, m); }
    forall h | h in z.agent.handlers ensures HandlerTrue(z, z.agent.handlers[h]) {
      if h in y.agent.handlers { assert HandlerTrue(y, y.agent.handlers[h]); }
    }
    forall i: nat | i < |z.agent.core.heap| ensures ReceiptTrue(z, z.agent.core.heap[i].result) {
      assert ReceiptTrue(y, y.agent.core.heap[i].result);
    }
  }

  /** A delivery adds an arrival and nothing else. */
  lemma ReceiveIsCalm(y: System, h: nat, env: Envelope, wire: set<OpId>)
    requires h !in y.agent.handlers && env.op != "" && wire <= y.wire
    requires env.op in y.wire || !Claimed(y, env.op)
    ensures Calm(y, y.(agent := Apply(y.agent, Deliver(h, env)), wire := wire))
  {
    var z := y.(agent := Apply(y.agent, Deliver(h, env)), wire := wire);
    assert forall g | g in z.agent.handlers :: g == h || (g in y.agent.handlers && z.agent.handlers[g] == y.agent.handlers[g]);
    forall op | Claimed(y, op) && op !in y.wire && NoArrival(y.agent, op) ensures NoArrival(z.agent, op) {
      assert op != env.op;
    }
  }

  lemma ReceiveKeepsSysInv(y: System, h: nat, env: Envelope, turn: bool)
    requires SysInv(y) && h !in y.agent.handlers && env.op != ""
    requires if turn then env.op in y.wire && Claimed(y, env.op) else NonTurn(y, env.op)
    ensures SysInv(y.(agent := Apply(y.agent, Deliver(h, env)), wire := if turn then y.wire - {env.op} else y.wire))
  {
    var wire := if turn then y.wire - {env.op} else y.wire;
    var z := y.(agent := Apply(y.agent, Deliver(h, env)), wire := wire);
    StepKeepsInv(y.agent, Deliver(h, env));
    NoEarlyReceiptStays(y.agent, Deliver(h, env));
    ReceiveIsCalm(y, h, env, wire);
    CalmKeepsTruth(y, z);
  }

  /** The gateway's steps: rows change, the Agent does not. */
  lemma RowsStepKeepsSysInv(y: System, z: System)
    requires SysInv(y) && z.agent == y.agent && z.exposed == y.exposed
    requires forall op | NonTurn(y, op) :: NonTurn(z, op)
    requires forall op | Claimed(y, op) :: Claimed(z, op) && (op in z.wire ==> op in y.wire)
    requires forall op | op in z.wire && op !in y.wire :: Claimed(z, op) && !Claimed(y, op) && !NonTurn(y, op)
    ensures SysInv(z)
  {
    CalmKeepsTruth(y, z);
  }

  lemma GatewayKeepsKinds(rows: G.Rows, m: G.AgentMessage, op: OpId)
    requires op in rows.ops
    ensures var after := G.HandleStep(rows, m);
            op in after.ops && after.ops[op].kind == rows.ops[op].kind
            && (!rows.ops[op].status.Queued? ==> !after.ops[op].status.Queued?)
  {
  }

  lemma SysStepKeepsInv(y: System, step: SysStep)
    requires SysInv(y) && SysEnabled(y, step)
    ensures SysInv(SysApply(y, step))
  {
    var z := SysApply(y, step);
    match step
    case AgentMoves(s) => AgentMoveKeepsSysInv(y, s);
    case ReceiveTurn(h, op, payload) => ReceiveKeepsSysInv(y, h, Envelope(op, y.rows.ops[op].kind, payload), true);
    case ReceiveOther(h, env) => ReceiveKeepsSysInv(y, h, env, false);
    case Send(op) => RowsStepKeepsSysInv(y, z);
    case Lose(op) => RowsStepKeepsSysInv(y, z);
    case Report(m) =>
      forall op | op in y.rows.ops ensures op in z.rows.ops && z.rows.ops[op].kind == y.rows.ops[op].kind
                    && (!y.rows.ops[op].status.Queued? ==> !z.rows.ops[op].status.Queued?) {
        GatewayKeepsKinds(y.rows, Translate(m), op);
      }
      RowsStepKeepsSysInv(y, z);
    case Init(_, _) => RowsStepKeepsSysInv(y, z);
    case User(_) => RowsStepKeepsSysInv(y, z);
    case AddOther(_, _) => RowsStepKeepsSysInv(y, z);
  }

  predicate SysInitial(y: System) {
    Initial(y.agent) && y.agent.core.disk == map[] && y.wire == {} && y.exposed == {} && y.rows.ops == map[]
  }

  ghost predicate SysRun(history: seq<System>, steps: seq<SysStep>) {
    && |history| == |steps| + 1
    && SysInitial(history[0])
    && forall k | 0 <= k < |steps| :: SysEnabled(history[k], steps[k]) && history[k + 1] == SysApply(history[k], steps[k])
  }

  lemma {:induction false} SysRunKeepsInv(history: seq<System>, steps: seq<SysStep>, k: nat)
    requires SysRun(history, steps) && k < |history|
    ensures SysInv(history[k])
  {
    if k > 0 {
      SysRunKeepsInv(history, steps, k - 1);
      SysStepKeepsInv(history[k - 1], steps[k - 1]);
    }
  }

  ghost predicate UnlockedReadAt(history: seq<System>, steps: seq<SysStep>, j: int, op: OpId)
    requires SysRun(history, steps)
  {
    0 <= j < |steps| && steps[j].AgentMoves? && UnlockedRead(history[j].agent, steps[j].move, op)
  }

  /** The history field is what its name says. */
  lemma {:induction false} ExposedByUnlockedRead(history: seq<System>, steps: seq<SysStep>, k: nat, op: OpId)
    requires SysRun(history, steps) && k < |history|
    ensures op in history[k].exposed <==> exists j | 0 <= j < k :: UnlockedReadAt(history, steps, j, op)
  {
    if k > 0 {
      ExposedByUnlockedRead(history, steps, k - 1, op);
      ExposedByStep(history[k - 1], steps[k - 1], op);
      assert op in history[k].exposed && op !in history[k - 1].exposed ==> UnlockedReadAt(history, steps, k - 1, op);
      assert UnlockedReadAt(history, steps, k - 1, op) ==> op in history[k].exposed;
    }
  }

  lemma ExposedByStep(y: System, step: SysStep, op: OpId)
    requires SysEnabled(y, step)
    ensures op in SysApply(y, step).exposed <==>
            op in y.exposed || (step.AgentMoves? && UnlockedRead(y.agent, step.move, op))
  {
  }

  /** Safe release.  Whenever an Agent message makes a Claude or Gemini turn terminal at
      the control plane, the turn never starts again, and no execution of it is between
      registration and `done`: always when the message is the turn's own result, a replay
      or a probe reply, and for a stop unless it was confirmed by an unlocked read of the
      receipt while the turn had not closed `done`.  Even then the receipt is saved. */
  lemma SafeReleaseOfTurns(history: seq<System>, steps: seq<SysStep>, k: nat, op: OpId)
    requires SysRun(history, steps) && k < |steps| && steps[k].Report?
    requires G.OpActive(history[k].rows, op) && IsTurn(history[k].rows.ops[op].kind)
    requires !G.OpActive(history[k + 1].rows, op)
    ensures steps[k].m.Completed? && (steps[k].m.result.op == op ==> Still(history[k].agent, op))
    ensures !Still(history[k].agent, op) ==> exists j | 0 <= j < k :: UnlockedReadAt(history, steps, j, op)
    ensures Quiet(history[k].agent, op)
    ensures forall j | k <= j < |steps| && steps[j].AgentMoves? :: !Starts(history[j].agent, steps[j].move, op)
  {
    SysRunKeepsInv(history, steps, k);
    ExposedByUnlockedRead(history, steps, k, op);
    var y, m := history[k], steps[k].m;
    G.TurnsEndOnlyByReceipt(y.rows, Translate(m), op);
    assert MessageTrue(y, m);
    assert Safe(y, op);
    forall j | k <= j < |steps| && steps[j].AgentMoves? ensures !Starts(history[j].agent, steps[j].move, op) {
      SpentForever(history, steps, k, j, op);
      SysRunKeepsInv(history, steps, j);
      SpentNeverStarts(history[j], steps[j].move, op);
    }
  }

  /** A stop that waited for `done` is confirmed only when nothing holds the turn. */
  lemma WaitedStopIsStill(s: State, h: nat)
    requires Inv(s) && Enabled(s, StopWake(h))
    ensures Still(s, Env(s, h).payload.target)
  {
    assert HandlerSound(s.core, s.handlers[h]);
    DoneRecordIsStill(s, PhaseOf(s, h).other);
  }

  lemma SpentNeverStarts(y: System, step: Step, op: OpId)
    requires SysInv(y) && Enabled(y.agent, step) && Spent(y, op)
    ensures !Starts(y.agent, step, op)
  {
    if step.Lookup? && Env(y.agent, step.h).op == op {
      StartsExactlyWhenUnknown(y.agent, step.h, step.evict, step.readable);
      assert y.agent.handlers[step.h].phase.Arrived?;
    }
  }

  lemma SpentStays(y: System, step: SysStep, op: OpId)
    requires SysInv(y) && SysEnabled(y, step) && Spent(y, op)
    ensures Spent(SysApply(y, step), op)
  {
    match step
    case AgentMoves(s) => SafetySurvivesAgent(y, s, op);
    case ReceiveTurn(h, o, payload) =>
    case ReceiveOther(h, env) =>
    case Report(m) => if op in y.rows.ops { GatewayKeepsKinds(y.rows, Translate(m), op); }
    case _ =>
  }

  lemma SpentStep(history: seq<System>, steps: seq<SysStep>, k: nat, op: OpId)
    requires SysRun(history, steps) && k < |steps|
    ensures Spent(history[k], op) ==> Spent(history[k + 1], op)
  {
    SysRunKeepsInv(history, steps, k);
    if Spent(history[k], op) { SpentStays(history[k], steps[k], op); }
  }

  lemma {:induction false} SpentChain(history: seq<System>, i: nat, j: nat, op: OpId)
    requires i <= j < |history| && Spent(history[i], op)
    requires forall k: nat | i <= k < j :: Spent(history[k], op) ==> Spent(history[k + 1], op)
    ensures Spent(history[j], op)
    decreases j
  {
    if i < j { SpentChain(history, i, j - 1, op); }
  }

  lemma SpentForever(history: seq<System>, steps: seq<SysStep>, i: nat, j: nat, op: OpId)
    requires SysRun(history, steps) && i <= j < |history| && Spent(history[i], op)
    ensures Spent(history[j], op)
  {
    forall k: nat | i <= k < j ensures Spent(history[k], op) ==> Spent(history[k + 1], op) {
      SpentStep(history, steps, k, op);
    }
    SpentChain(history, i, j, op);
  }

  /** The steps that carry a confirmed stop to the gateway. */
  function Confirmation(y: System, g: nat): seq<SysStep>
    requires g in y.agent.handlers && Env(y.agent, g).payload.Command?
  {
    var stop := Outcome(Env(y.agent, g).op, Succeeded, Plain, Some(Env(y.agent, g).payload.target));
    [AgentMoves(CheckReceipt(g, true)), AgentMoves(Save(g, false)), AgentMoves(Publish(g, 0, 0, {})),
     AgentMoves(Announce(g)), Report(Completed(stop))]
  }

  predicate Follows(history: seq<System>, steps: seq<SysStep>) {
    && |history| == |steps| + 1
    && forall k | 0 <= k < |steps| :: SysEnabled(history[k], steps[k]) && history[k + 1] == SysApply(history[k], steps[k])
  }

  /** The exception is exact: from every sound state in which such a read can happen, the stop can
      reach the gateway before `done` is closed, and it ends the turn if the gateway accepts it. */
  lemma UnlockedReadEndsHeldTurn(y: System, g: nat, h: nat, op: OpId) returns (history: seq<System>)
    requires SysInv(y) && Enabled(y.agent, CheckReceipt(g, true)) && UnlockedRead(y.agent, CheckReceipt(g, true), op)
    requires h in y.agent.handlers && y.agent.handlers[h].env.op == op && Holds(y.agent.handlers[h].phase)
    ensures Follows(history, Confirmation(y, g)) && history[0] == y
    ensures history[4].rows == y.rows && !Still(history[4].agent, op)
    ensures history[5].rows ==
      G.HandleStep(y.rows, G.ResultMessage(Outcome(Env(y.agent, g).op, Succeeded, Plain, Some(op))))
  {
    hide SysInv, HandlerSound;
    var y1 := StopIsFinished(y, g, op);
    NoHolderChecksItself(y, g, h, op);
    var y2, y3, y4 := FinishedIsAnnounced(y1, g);
    history := [y, y1, y2, y3, y4, SysApply(y4, Confirmation(y, g)[4])];
    assert y4.agent.handlers[h] == y.agent.handlers[h];
  }

  lemma StopIsFinished(y: System, g: nat, op: OpId) returns (z: System)
    requires SysInv(y) && Enabled(y.agent, CheckReceipt(g, true)) && UnlockedRead(y.agent, CheckReceipt(g, true), op)
    ensures SysEnabled(y, Confirmation(y, g)[0]) && z == SysApply(y, Confirmation(y, g)[0])
    ensures g in z.agent.handlers && z.agent.handlers - {g} == y.agent.handlers - {g} && z.rows == y.rows
    ensures z.agent.handlers[g].env == Env(y.agent, g) && z.agent.handlers[g].phase.Finished?
    ensures z.agent.handlers[g].phase.exec < |z.agent.core.heap| && !z.agent.handlers[g].phase.staged
    ensures z.agent.handlers[g].phase.result == Outcome(Env(y.agent, g).op, Succeeded, Plain, Some(op))
  {
    assert HandlerSound(y.agent.core, y.agent.handlers[g]);
    z := SysApply(y, AgentMoves(CheckReceipt(g, true)));
  }

  lemma FinishedIsAnnounced(y: System, g: nat) returns (saved: System, published: System, announced: System)
    requires g in y.agent.handlers && y.agent.handlers[g].phase.Finished? && !y.agent.handlers[g].phase.staged
    requires y.agent.handlers[g].phase.exec < |y.agent.core.heap|
    ensures SysEnabled(y, AgentMoves(Save(g, false))) && saved == SysApply(y, AgentMoves(Save(g, false)))
    ensures SysEnabled(saved, AgentMoves(Publish(g, 0, 0, {})))
    ensures published == SysApply(saved, AgentMoves(Publish(g, 0, 0, {})))
    ensures SysEnabled(published, AgentMoves(Announce(g))) && announced == SysApply(published, AgentMoves(Announce(g)))
    ensures announced.agent.handlers == y.agent.handlers - {g} && announced.rows == y.rows
    ensures Completed(y.agent.handlers[g].phase.result) in announced.agent.core.sent
  {
    saved := SysApply(y, AgentMoves(Save(g, false)));
    published := SysApply(saved, AgentMoves(Publish(g, 0, 0, {})));
    announced := SysApply(published, AgentMoves(Announce(g)));
  }

  lemma NoHolderChecksItself(y: System, g: nat, h: nat, op: OpId)
    requires SysInv(y) && g in y.agent.handlers && h in y.agent.handlers && y.agent.handlers[g].phase.Checking?
    requires op in y.agent.core.disk && y.agent.handlers[h].env.op == op && Holds(y.agent.handlers[h].phase)
    ensures g != h
  {
    OnDiskIsSafe(y, op);
  }

  lemma SysExtends(history: seq<System>, steps: seq<SysStep>, step: SysStep) returns (hs: seq<System>, ts: seq<SysStep>)
    requires SysRun(history, steps) && SysEnabled(history[|steps|], step)
    ensures SysRun(hs, ts) && |ts| == |steps| + 1 && hs[|ts|] == SysApply(history[|steps|], step)
    ensures hs[..|history|] == history && ts[..|steps|] == steps && ts[|steps|] == step
  {
    hs, ts := history + [SysApply(history[|steps|], step)], steps + [step];
    forall k | 0 <= k < |ts| ensures SysEnabled(hs[k], ts[k]) && hs[k + 1] == SysApply(hs[k], ts[k]) {
      if k < |steps| { assert hs[k] == history[k] && ts[k] == steps[k] && hs[k + 1] == history[k + 1]; }
    }
  }

  /** An operation that the Agent has looked up and let through its gate. */
  lemma Admitted(history: seq<System>, steps: seq<SysStep>, h: nat)
    returns (hs: seq<System>, ts: seq<SysStep>)
    requires SysRun(history, steps)
    requires var s := history[|steps|].agent;
      && h in s.handlers && s.handlers[h].phase.Arrived? && !s.core.updatePending
      && s.handlers[h].env.op !in s.core.seen && s.handlers[h].env.op !in s.core.disk
      && !DecodedFirst(s.handlers[h].env.kind)
    ensures SysRun(hs, ts) && |ts| == |steps| + 2
    ensures var s, y := history[|steps|].agent, hs[|ts|];
      var env, c := s.handlers[h].env, s.core;
      && y.agent == State(c.(heap := c.heap + [NewExecution(env)], seen := c.seen[env.op := |c.heap|],
                             sent := c.sent + {Started(env.op)}),
                          s.handlers[h := Handler(env, Running(|c.heap|))])
      && y.rows == history[|steps|].rows && y.wire == history[|steps|].wire && y.exposed == history[|steps|].exposed
  {
    var s := history[|steps|].agent;
    assert Evict(s.core, {}) == s.core;
    hs, ts := SysExtends(history, steps, AgentMoves(Lookup(h, {}, true)));
    assert PhaseOf(hs[|ts|].agent, h) == Registered(|s.core.heap|);
    hs, ts := SysExtends(hs, ts, AgentMoves(Gate(h)));
    assert hs[|ts|].agent.handlers == s.handlers[h := Handler(s.handlers[h].env, Running(|s.core.heap|))];
  }

  /** A turn is queued and sent, and then its interruption is requested. */
  lemma InterruptionRequested(thread: G.ThreadId, t: OpId, i: OpId) returns (hs: seq<System>, ts: seq<SysStep>)
    requires t != i && t != "" && i != ""
    ensures SysRun(hs, ts) && |ts| == 3
    ensures var y := hs[|ts|];
      && y.agent == State(Core([], map[], map[], false, {}), map[]) && y.wire == {t} && y.exposed == {}
      && y.rows.ops == map[t := G.OpRow(ClaudeTurnStart, thread, "", false, G.Delivered)]
                       [i := G.OpRow(ClaudeTurnInterrupt, thread, t, false, G.Queued)]
  {
    var rows := G.Rows(map[], map[thread := G.ThreadRow("", G.Idle)]);
    hs, ts := [System(rows, State(Core([], map[], map[], false, {}), map[]), {}, {})], [];
    hs, ts := SysExtends(hs, ts, User(G.QueueTurn(thread, t, ClaudeTurnStart)));
    hs, ts := SysExtends(hs, ts, Send(t));
    hs, ts := SysExtends(hs, ts, User(G.RequestInterrupt(thread, i)));
  }

  /** The interrupt arrives first, finds nothing, and lets the lock go before it reads the receipt. */
  lemma InterruptIsChecking(thread: G.ThreadId, t: OpId, i: OpId) returns (hs: seq<System>, ts: seq<SysStep>)
    requires t != i && t != "" && i != ""
    ensures SysRun(hs, ts) && |ts| == 7
    ensures var y, env := hs[|ts|], Envelope(i, ClaudeTurnInterrupt, Command(t, ClaudeTurnStart));
      && y.agent.core.heap == [NewExecution(env)] && y.agent.core.seen == map[i := 0]
      && y.agent.core.disk == map[] && !y.agent.core.updatePending
      && y.agent.handlers == map[1 := Handler(env, Checking(0))] && y.wire == {t} && y.exposed == {}
      && y.rows.ops == map[t := G.OpRow(ClaudeTurnStart, thread, "", false, G.Delivered)]
                       [i := G.OpRow(ClaudeTurnInterrupt, thread, t, false, G.Queued)]
  {
    var env := Envelope(i, ClaudeTurnInterrupt, Command(t, ClaudeTurnStart));
    hs, ts := InterruptionRequested(thread, t, i);
    hs, ts := SysExtends(hs, ts, ReceiveOther(1, env));
    hs, ts := Admitted(hs, ts, 1);
    hs, ts := SysExtends(hs, ts, AgentMoves(TurnLookup(1)));
  }

  /** The turn arrives, runs and saves its receipt. */
  lemma TurnHasSaved(thread: G.ThreadId, t: OpId, i: OpId) returns (hs: seq<System>, ts: seq<SysStep>)
    requires t != i && t != "" && i != ""
    ensures SysRun(hs, ts) && |ts| == 12
    ensures var y := hs[|ts|];
      && y.agent.handlers.Keys == {0, 1} && y.agent.handlers[0].env.op == t && y.agent.handlers[0].phase.Saved?
      && y.agent.handlers[1] == Handler(Envelope(i, ClaudeTurnInterrupt, Command(t, ClaudeTurnStart)), Checking(0))
      && Load(y.agent.core.disk, t, true).Found?
      && y.rows.ops == map[t := G.OpRow(ClaudeTurnStart, thread, "", false, G.Delivered)]
                       [i := G.OpRow(ClaudeTurnInterrupt, thread, t, false, G.Queued)]
  {
    hs, ts := InterruptIsChecking(thread, t, i);
    hs, ts := SysExtends(hs, ts, ReceiveTurn(0, t, Malformed));
    hs, ts := Admitted(hs, ts, 0);
    hs, ts := SysExtends(hs, ts, AgentMoves(FinishBody(0, Completes, Plain)));
    hs, ts := SysExtends(hs, ts, AgentMoves(Save(0, true)));
  }

  lemma SysJoin(history: seq<System>, steps: seq<SysStep>, more: seq<System>, later: seq<SysStep>)
    requires SysRun(history, steps) && Follows(more, later) && history[|steps|] == more[0]
    ensures SysRun(history + more[1..], steps + later)
  {
    var hs, ts := history + more[1..], steps + later;
    forall k | 0 <= k < |ts| ensures SysEnabled(hs[k], ts[k]) && hs[k + 1] == SysApply(hs[k], ts[k]) {
      if k >= |steps| { assert hs[k] == more[k - |steps|] && hs[k + 1] == more[k - |steps| + 1]; }
    }
  }

  /** The exception is real: a whole run in which the gateway ends a turn, on a stop confirmed in this
      way, while the turn has saved its receipt and has not closed `done`. */
  lemma StopCanBeConfirmedBeforeDone(thread: G.ThreadId, t: OpId, i: OpId)
    returns (history: seq<System>, steps: seq<SysStep>)
    requires t != i && t != "" && i != ""
    ensures SysRun(history, steps) && |steps| == 17 && steps[16].Report?
    ensures G.OpActive(history[16].rows, t) && IsTurn(history[16].rows.ops[t].kind) && !G.OpActive(history[17].rows, t)
    ensures !Still(history[16].agent, t)
  {
    var hs, ts := TurnHasSaved(thread, t, i);
    var y := hs[12];
    SysRunKeepsInv(hs, ts, 12);
    assert Holds(y.agent.handlers[0].phase);
    var more := UnlockedReadEndsHeldTurn(y, 1, 0, t);
    SysJoin(hs, ts, more, Confirmation(y, 1));
    history, steps := hs + more[1..], ts + Confirmation(y, 1);
    assert history[16] == more[4] && history[17] == more[5];
  }
}
