/** What every interleaving of the operation engine keeps, and what follows over
    whole runs: at-most-once execution, final interruption, update exclusion. */
module OperationSafety {
  import opened Options
  import opened Protocol
  import opened OperationCache
  import opened OperationEngine
  import Text

  // --------------------------------------------------------------- invariant

  predicate SeenSound(core: Core) {
    forall id | id in core.seen :: core.seen[id] < |core.heap| && core.heap[core.seen[id]].op == id
  }

  /** A record is in the table, or it has completed and its receipt is on disk. */
  predicate RecordSound(core: Core, i: nat)
    requires i < |core.heap|
  {
    var e := core.heap[i];
    && (e.persisted ==> e.op in core.disk)
    && ((e.op in core.seen && core.seen[e.op] == i) || (e.done && e.persisted))
    && (e.done ==> e.result.op == e.op)
  }

  /** No two records of one process carry the same operation ID. */
  predicate OneRecordEach(core: Core) {
    forall i, j | 0 <= i < j < |core.heap| :: core.heap[i].op != core.heap[j].op
  }

  predicate CoreSound(core: Core) {
    SeenSound(core) && OneRecordEach(core) && forall i: nat | i < |core.heap| :: RecordSound(core, i)
  }

  /** The target can never start again in this process; on disk, in none at all. */
  predicate Settled(core: Core, op: OpId) {
    op in core.disk ||
    (op in core.seen && core.seen[op] < |core.heap| && core.heap[core.seen[op]].done)
  }

  predicate IsRecord(core: Core, i: nat, op: OpId) {
    i < |core.heap| && core.heap[i].op == op
  }

  predicate ReportsStop(env: Envelope, result: OperationResult) {
    env.kind.OperationInterrupt? && env.payload.Command? && result.status.Succeeded?
  }

  predicate HandlerSound(core: Core, hd: Handler) {
    var env, p := hd.env, hd.phase;
    && env.op != ""
    && (Holds(p) ==> IsRecord(core, p.exec, env.op) && core.heap[p.exec].kind == env.kind && !core.heap[p.exec].done)
    && (p.Published? || p.Activating? || p.Reporting? ==> IsRecord(core, p.exec, env.op) && core.heap[p.exec].done)
    && (p.AwaitingDuplicate? ==> IsRecord(core, p.other, env.op))
    && (p.Interrupting? || p.ReplayWaiting? ==> env.payload.Command? && IsRecord(core, p.other, env.payload.target))
    && (p.Stopping? ==> env.payload.Command? && IsRecord(core, p.other, env.payload.target)
                        && InterruptMatches(env.kind, core.heap[p.other].kind))
    && (p.Checking? ==> env.payload.Command?)
    && (p.Staging? ==> env.kind.AgentUpdate?)
    && (p.Finished? || p.Saved? || p.Published? ==>
          p.result.op == env.op && (ReportsStop(env, p.result) ==> Settled(core, env.payload.target)))
    && (p.Replaying? || p.ReplayWaiting? ==> p.result.op == env.op)
    && (p.Saved? && p.onDisk ==> env.op in core.disk)
  }

  predicate OneHolder(s: State) {
    forall g, h | g in s.handlers && h in s.handlers && g != h
                  && Holds(PhaseOf(s, g)) && Holds(PhaseOf(s, h)) ::
      PhaseOf(s, g).exec != PhaseOf(s, h).exec
  }

  /** `updatePending` belongs to exactly one live update handler. */
  predicate UpdateOwned(s: State) {
    && (s.core.updatePending ==> exists h :: h in s.handlers && OwnsUpdate(s.handlers[h].phase))
    && (forall h | h in s.handlers && OwnsUpdate(s.handlers[h].phase) :: s.core.updatePending)
    && (forall g, h | g in s.handlers && h in s.handlers && OwnsUpdate(s.handlers[g].phase) && OwnsUpdate(s.handlers[h].phase) :: g == h)
  }

  /** While an update is pending no operation it scanned for is past its gate. */
  predicate UpdateExclusive(s: State) {
    s.core.updatePending ==>
      forall h | h in s.handlers :: !(s.handlers[h].phase.Running? && Scanned(s.handlers[h].env.kind))
  }

  predicate HandlersSound(s: State) {
    forall h | h in s.handlers :: HandlerSound(s.core, s.handlers[h])
  }

  ghost predicate Inv(s: State) {
    CoreSound(s.core) && HandlersSound(s) && OneHolder(s) && UpdateOwned(s) && UpdateExclusive(s)
  }

  // ------------------------------------------------------------- preservation

  /** Everything a step may do to the shared state without disturbing other handlers. */
  ghost predicate Grows(a: Core, b: Core, own: int) {
    && |a.heap| <= |b.heap|
    && (forall i | 0 <= i < |a.heap| ::
          && b.heap[i].op == a.heap[i].op && b.heap[i].kind == a.heap[i].kind
          && (a.heap[i].done ==> b.heap[i].done)
          && (i != own ==> b.heap[i].done == a.heap[i].done))
    && a.disk.Keys <= b.disk.Keys
    && (forall op | Settled(a, op) :: Settled(b, op))
  }

  /** A handler other than the one that moved stays sound. */
  lemma OthersStaySound(a: Core, b: Core, own: int, hd: Handler)
    requires HandlerSound(a, hd) && Grows(a, b, own)
    requires Holds(hd.phase) ==> hd.phase.exec != own
    ensures HandlerSound(b, hd)
  {
  }

  /** Moving one handler: what has to be shown about the shared state and the new phase. */
  lemma MoveKeepsInv(s: State, h: nat, to: (Core, Phase), own: int)
    requires Inv(s) && At(s, h)
    requires own == -1 || (Holds(PhaseOf(s, h)) && PhaseOf(s, h).exec == own)
    requires CoreSound(to.0) && Grows(s.core, to.0, own)
    requires HandlerSound(to.0, Handler(Env(s, h), to.1))
    requires Holds(to.1) ==>
               (Holds(PhaseOf(s, h)) && to.1.exec == PhaseOf(s, h).exec) || to.1.exec == |s.core.heap|
    requires OwnsUpdate(to.1) == OwnsUpdate(PhaseOf(s, h)) && to.0.updatePending == s.core.updatePending
    requires to.1.Running? && Scanned(Env(s, h).kind) ==> !to.0.updatePending
    ensures Inv(Move(s, h, to))
  {
    var t := Move(s, h, to);
    forall g | g in t.handlers ensures HandlerSound(t.core, t.handlers[g]) {
      if g != h { OthersStaySound(s.core, to.0, own, s.handlers[g]); }
    }
    MoveKeepsOneHolder(s, h, to);
    MoveKeepsUpdate(s, h, to);
  }

  lemma MoveKeepsOneHolder(s: State, h: nat, to: (Core, Phase))
    requires HandlersSound(s) && OneHolder(s) && At(s, h)
    requires Holds(to.1) ==>
               (Holds(PhaseOf(s, h)) && to.1.exec == PhaseOf(s, h).exec) || to.1.exec == |s.core.heap|
    ensures OneHolder(Move(s, h, to))
  {
    forall g | g in s.handlers && g != h && Holds(PhaseOf(s, g)) && Holds(to.1)
      ensures PhaseOf(s, g).exec != to.1.exec
    {
      assert HandlerSound(s.core, s.handlers[g]);
    }
  }

  lemma MoveKeepsUpdate(s: State, h: nat, to: (Core, Phase))
    requires UpdateOwned(s) && UpdateExclusive(s) && At(s, h)
    requires OwnsUpdate(to.1) == OwnsUpdate(PhaseOf(s, h)) && to.0.updatePending == s.core.updatePending
    requires to.1.Running? && Scanned(Env(s, h).kind) ==> !to.0.updatePending
    ensures UpdateOwned(Move(s, h, to)) && UpdateExclusive(Move(s, h, to))
  {
    var t := Move(s, h, to);
    if t.core.updatePending {
      var w :| w in s.handlers && OwnsUpdate(s.handlers[w].phase);
      assert w in t.handlers && OwnsUpdate(t.handlers[w].phase);
    }
  }

  lemma PartKeepsInv(s: State, h: nat, core: Core)
    requires Inv(s) && At(s, h)
    requires CoreSound(core) && Grows(s.core, core, -1)
    requires !OwnsUpdate(PhaseOf(s, h)) && core.updatePending == s.core.updatePending
    ensures Inv(Part(s, h, core))
  {
    var t := Part(s, h, core);
    forall g | g in t.handlers ensures HandlerSound(t.core, t.handlers[g]) {
      OthersStaySound(s.core, core, -1, s.handlers[g]);
    }
    if t.core.updatePending {
      var w :| w in s.handlers && OwnsUpdate(s.handlers[w].phase);
      assert w in t.handlers && OwnsUpdate(t.handlers[w].phase);
    }
  }

  lemma CoreStepKeepsInv(s: State, core: Core)
    requires Inv(s) && CoreSound(core) && Grows(s.core, core, -1) && core.updatePending == s.core.updatePending
    ensures Inv(s.(core := core))
  {
    var t := s.(core := core);
    forall g | g in t.handlers ensures HandlerSound(t.core, t.handlers[g]) {
      OthersStaySound(s.core, core, -1, s.handlers[g]);
    }
    if t.core.updatePending {
      var w :| w in s.handlers && OwnsUpdate(s.handlers[w].phase);
      assert w in t.handlers && OwnsUpdate(t.handlers[w].phase);
    }
  }

  // -------------------------------------------- what each section does to Core

  lemma EvictGrows(core: Core, evict: set<OpId>)
    requires CoreSound(core) && MayEvict(core, evict)
    ensures CoreSound(Evict(core, evict)) && Grows(core, Evict(core, evict), -1)
  {
    var c := Evict(core, evict);
    forall i: nat | i < |core.heap| ensures RecordSound(c, i) {
      assert RecordSound(core, i);
    }
    forall op | Settled(core, op) ensures Settled(c, op) {
      if op in evict { assert RecordSound(core, core.seen[op]); }
    }
  }

  lemma SendGrows(core: Core, m: Message)
    requires CoreSound(core)
    ensures CoreSound(Send(core, m)) && Grows(core, Send(core, m), -1)
  {
    forall i: nat | i < |core.heap| ensures RecordSound(Send(core, m), i) { assert RecordSound(core, i); }
  }

  /** The heart of at-most-once: an operation missing from table and disk has no record. */
  lemma UnknownHasNoRecord(core: Core, op: OpId)
    requires CoreSound(core) && op !in core.seen && op !in core.disk
    ensures forall i: nat | i < |core.heap| :: core.heap[i].op != op
  {
    forall i: nat | i < |core.heap| ensures core.heap[i].op != op { assert RecordSound(core, i); }
  }

  lemma AppendGrows(core: Core, e: Execution, disk: map<OpId, Receipt>)
    requires CoreSound(core) && e.op !in core.seen && e.op !in core.disk
    requires core.disk.Keys <= disk.Keys && (e.persisted ==> e.op in disk) && (e.done ==> e.result.op == e.op)
    ensures var c := core.(heap := core.heap + [e], seen := core.seen[e.op := |core.heap|], disk := disk);
            CoreSound(c) && Grows(core, c, -1)
  {
    UnknownHasNoRecord(core, e.op);
    var c := core.(heap := core.heap + [e], seen := core.seen[e.op := |core.heap|], disk := disk);
    forall i: nat | i < |c.heap| ensures RecordSound(c, i) {
      if i < |core.heap| { assert RecordSound(core, i); assert c.heap[i] == core.heap[i]; }
    }
  }

  lemma PublishGrows(core: Core, exec: nat, e: Execution)
    requires CoreSound(core) && exec < |core.heap| && e.op == core.heap[exec].op && e.kind == core.heap[exec].kind
    requires e.done && e.result.op == e.op && (e.persisted ==> e.op in core.disk)
    requires !core.heap[exec].done || core.heap[exec].persisted == e.persisted
    ensures CoreSound(core.(heap := core.heap[exec := e])) && Grows(core, core.(heap := core.heap[exec := e]), exec)
  {
    var c := core.(heap := core.heap[exec := e]);
    forall i: nat | i < |c.heap| ensures RecordSound(c, i) { assert RecordSound(core, i); }
  }

  lemma DiskGrows(core: Core, op: OpId, receipt: Receipt)
    requires CoreSound(core)
    ensures CoreSound(core.(disk := core.disk[op := receipt])) && Grows(core, core.(disk := core.disk[op := receipt]), -1)
  {
    var c := core.(disk := core.disk[op := receipt]);
    forall i: nat | i < |c.heap| ensures RecordSound(c, i) { assert RecordSound(core, i); }
  }

  lemma GrowsTransitive(a: Core, b: Core, c: Core, own: int)
    requires Grows(a, b, own) && Grows(b, c, own)
    ensures Grows(a, c, own)
  {
  }

  lemma GrowsWeaken(a: Core, b: Core, own: int)
    requires Grows(a, b, -1)
    ensures Grows(a, b, own)
  {
  }

  lemma InterruptSectionGrows(core: Core, env: Envelope, readable: bool, saves: bool, queues: bool, now: int)
    requires CoreSound(core)
    ensures var (c, answer) := InterruptSection(core, env, readable, saves, queues, now);
            && CoreSound(c) && Grows(core, c, -1) && c.updatePending == core.updatePending
            && (answer.Confirmed? ==> env.payload.Command? && Settled(c, env.payload.target))
            && (answer.Wait? ==> env.payload.Command? && IsRecord(c, answer.other, env.payload.target))
  {
    var (c, answer) := InterruptSection(core, env, readable, saves, queues, now);
    if env.payload.Command? && !Text.IsBlank(env.payload.target) && CanInterruptOperation(env.payload.targetKind) {
      var target := env.payload.target;
      if target !in core.seen {
        match Load(core.disk, target, readable) {
          case Unreadable =>
          case Found(r) => SendGrows(core, Completed(r));
          case Missing =>
            if saves {
              var e := Execution(target, env.payload.targetKind, true, Tombstone(target), 0, now, true);
              AppendGrows(core, e, core.disk[target := Readable(Tombstone(target))]);
              var t := AddTombstone(core, target, env.payload.targetKind, now);
              SendGrows(t, Completed(Tombstone(target)));
              GrowsTransitive(core, t, Send(t, Completed(Tombstone(target))), -1);
            }
        }
      }
    }
  }

  // --------------------------------------------------- every step keeps the invariant

  lemma DeliverKeepsInv(s: State, h: nat, env: Envelope)
    requires Inv(s) && h !in s.handlers && env.op != ""
    ensures Inv(s.(handlers := s.handlers[h := Handler(env, Arrived)]))
  {
    DeliverKeepsHandlers(s, h, env);
    DeliverKeepsUpdate(s, h, env);
  }

  lemma DeliverKeepsHandlers(s: State, h: nat, env: Envelope)
    requires HandlersSound(s) && OneHolder(s) && h !in s.handlers && env.op != ""
    ensures var t := s.(handlers := s.handlers[h := Handler(env, Arrived)]); HandlersSound(t) && OneHolder(t)
  {
    var t := s.(handlers := s.handlers[h := Handler(env, Arrived)]);
    forall g | g in t.handlers ensures HandlerSound(t.core, t.handlers[g]) {
      if g != h { assert t.handlers[g] == s.handlers[g]; }
    }
    forall f, g | f in t.handlers && g in t.handlers && f != g && Holds(PhaseOf(t, f)) && Holds(PhaseOf(t, g))
      ensures PhaseOf(t, f).exec != PhaseOf(t, g).exec
    {
      assert f != h && g != h && PhaseOf(t, f) == PhaseOf(s, f) && PhaseOf(t, g) == PhaseOf(s, g);
    }
  }

  lemma DeliverKeepsUpdate(s: State, h: nat, env: Envelope)
    requires UpdateOwned(s) && UpdateExclusive(s) && h !in s.handlers
    ensures var t := s.(handlers := s.handlers[h := Handler(env, Arrived)]); UpdateOwned(t) && UpdateExclusive(t)
  {
    var t := s.(handlers := s.handlers[h := Handler(env, Arrived)]);
    if t.core.updatePending {
      var w :| w in s.handlers && OwnsUpdate(s.handlers[w].phase);
      assert w in t.handlers && OwnsUpdate(t.handlers[w].phase);
    }
  }

  lemma LookupKeepsInv(s: State, h: nat, evict: set<OpId>, readable: bool)
    requires Inv(s) && Enabled(s, Lookup(h, evict, readable))
    ensures Inv(Apply(s, Lookup(h, evict, readable)))
  {
    var env := Env(s, h);
    var to := LookupSection(s.core, env, evict, readable);
    var c := Evict(s.core, evict);
    EvictGrows(s.core, evict);
    assert HandlerSound(s.core, s.handlers[h]);
    if env.op !in c.seen && Load(c.disk, env.op, readable).Missing? {
      AppendGrows(c, NewExecution(env), c.disk);
      var d := c.(heap := c.heap + [NewExecution(env)], seen := c.seen[env.op := |c.heap|]);
      SendGrows(d, Started(env.op));
      GrowsTransitive(s.core, c, d, -1);
      GrowsTransitive(s.core, d, to.0, -1);
    }
    MoveKeepsInv(s, h, to, -1);
  }

  lemma InterruptBodyKeepsInv(s: State, h: nat, readable: bool, saves: bool, queues: bool, now: int)
    requires Inv(s) && Enabled(s, InterruptBody(h, readable, saves, queues, now))
    ensures Inv(Apply(s, InterruptBody(h, readable, saves, queues, now)))
  {
    var hd := s.handlers[h];
    assert HandlerSound(s.core, hd);
    var to := InterruptBodySection(s.core, hd.env, hd.phase.exec, readable, saves, queues, now);
    InterruptSectionGrows(s.core, hd.env, readable, saves, queues, now);
    OthersStaySound(s.core, to.0, -1, hd);
    MoveKeepsInv(s, h, to, -1);
  }

  lemma InterruptWakeKeepsInv(s: State, h: nat, queues: bool)
    requires Inv(s) && Enabled(s, InterruptWake(h, queues))
    ensures Inv(Apply(s, InterruptWake(h, queues)))
  {
    var hd := s.handlers[h];
    assert HandlerSound(s.core, hd);
    var to := InterruptWakeSection(s.core, hd.env, hd.phase.exec, hd.phase.other, queues);
    assert RecordSound(s.core, hd.phase.other);
    SendGrows(s.core, Completed(s.core.heap[hd.phase.other].result));
    MoveKeepsInv(s, h, to, -1);
  }

  /** The steps of a body that change no shared state. */
  lemma QuietBodyStepsKeepInv(s: State, step: Step)
    requires Inv(s) && Enabled(s, step)
    requires step.Gate? || step.FinishBody? || step.TurnLookup? || step.StopWake? || step.GiveUp? || step.CheckReceipt?
    ensures Inv(Apply(s, step))
  {
    var h := step.h;
    var t := Apply(s, step);
    QuietBodyStepKeepsHandlerSound(s, step);
    assert Grows(s.core, s.core, -1);
    MoveKeepsInv(s, h, (s.core, t.handlers[h].phase), -1);
    assert t == Move(s, h, (s.core, t.handlers[h].phase));
  }

  lemma QuietBodyStepKeepsHandlerSound(s: State, step: Step)
    requires CoreSound(s.core) && HandlersSound(s) && Enabled(s, step)
    requires step.Gate? || step.FinishBody? || step.TurnLookup? || step.StopWake? || step.GiveUp? || step.CheckReceipt?
    ensures var t := Apply(s, step);
            && t.core == s.core && t.handlers == s.handlers[step.h := t.handlers[step.h]]
            && t.handlers[step.h].env == Env(s, step.h)
            && HandlerSound(s.core, t.handlers[step.h])
            && Holds(t.handlers[step.h].phase) && t.handlers[step.h].phase.exec == PhaseOf(s, step.h).exec
            && Holds(PhaseOf(s, step.h))
            && !OwnsUpdate(t.handlers[step.h].phase) && !OwnsUpdate(PhaseOf(s, step.h))
            && (t.handlers[step.h].phase.Running? && Scanned(Env(s, step.h).kind) ==> !s.core.updatePending)
  {
    assert HandlerSound(s.core, s.handlers[step.h]);
  }

  lemma SaveKeepsInv(s: State, h: nat, saves: bool)
    requires Inv(s) && Enabled(s, Save(h, saves))
    ensures Inv(Apply(s, Save(h, saves)))
  {
    var hd := s.handlers[h];
    assert HandlerSound(s.core, hd);
    DiskGrows(s.core, hd.phase.result.op, Readable(hd.phase.result));
    var to := SaveSection(s.core, hd.phase.exec, hd.phase.result, hd.phase.staged, saves);
    MoveKeepsInv(s, h, to, -1);
  }

  lemma PublishCore(core: Core, exec: nat, published: Execution, evict: set<OpId>)
    requires CoreSound(core) && exec < |core.heap| && !core.heap[exec].done
    requires published.op == core.heap[exec].op && published.kind == core.heap[exec].kind
    requires published.done && published.result.op == published.op && (published.persisted ==> published.op in core.disk)
    requires MayEvict(core.(heap := core.heap[exec := published]), evict)
    ensures var c := Evict(core.(heap := core.heap[exec := published]), evict);
            CoreSound(c) && Grows(core, c, exec)
  {
    var c := core.(heap := core.heap[exec := published]);
    PublishGrows(core, exec, published);
    EvictGrows(c, evict);
    GrowsWeaken(c, Evict(c, evict), exec);
    GrowsTransitive(core, c, Evict(c, evict), exec);
  }

  lemma PublishKeepsInv(s: State, h: nat, now: int, size: nat, evict: set<OpId>)
    requires Inv(s) && Enabled(s, Publish(h, now, size, evict))
    ensures Inv(Apply(s, Publish(h, now, size, evict)))
  {
    var hd := s.handlers[h];
    var p := hd.phase;
    assert HandlerSound(s.core, hd);
    var e := s.core.heap[p.exec];
    var published := Execution(e.op, e.kind, true, p.result, size, now, p.onDisk);
    var c := s.core.(heap := s.core.heap[p.exec := published]);
    assert Evict(c, {}) == c;
    PublishCore(s.core, p.exec, published, evict);
    var to := PublishSection(s.core, p.exec, p.result, p.staged, p.onDisk, now, size, evict);
    assert to.0 == Evict(c, evict);
    MoveKeepsInv(s, h, to, p.exec);
  }

  lemma AnnounceKeepsInv(s: State, h: nat)
    requires Inv(s) && Enabled(s, Announce(h))
    ensures Inv(Apply(s, Announce(h)))
  {
    var hd := s.handlers[h];
    assert HandlerSound(s.core, hd);
    SendGrows(s.core, Completed(hd.phase.result));
    var c := Send(s.core, Completed(hd.phase.result));
    if hd.phase.staged { MoveKeepsInv(s, h, (c, Activating(hd.phase.exec)), -1); }
    else { PartKeepsInv(s, h, c); }
  }

  lemma ReportFailedKeepsInv(s: State, h: nat, saves: bool)
    requires Inv(s) && Enabled(s, ReportFailed(h, saves))
    ensures Inv(Apply(s, ReportFailed(h, saves)))
  {
    var hd := s.handlers[h];
    var op, exec := hd.env.op, hd.phase.exec;
    assert HandlerSound(s.core, hd);
    DiskGrows(s.core, op, Readable(Failure(op)));
    var c := if saves then s.core.(disk := s.core.disk[op := Readable(Failure(op))]) else s.core;
    var e := c.heap[exec].(result := Failure(op));
    assert RecordSound(c, exec);
    PublishGrows(c, exec, e);
    var d := c.(heap := c.heap[exec := e]);
    SendGrows(d, Completed(Failure(op)));
    assert Grows(s.core, Send(d, Completed(Failure(op))), -1);
    PartKeepsInv(s, h, Send(d, Completed(Failure(op))));
  }

  lemma ReplayKeepsInv(s: State, h: nat, readable: bool, saves: bool, queues: bool, now: int)
    requires Inv(s) && Enabled(s, Replay(h, readable, saves, queues, now))
    ensures Inv(Apply(s, Replay(h, readable, saves, queues, now)))
  {
    if Env(s, h).kind.OperationInterrupt? && PhaseOf(s, h).result.status.Succeeded? {
      var (c, answer) := InterruptSection(s.core, Env(s, h), readable, saves, queues, now);
      InterruptSectionGrows(s.core, Env(s, h), readable, saves, queues, now);
      ReplayAnswerKeepsInv(s, h, c, answer);
    } else {
      assert Grows(s.core, s.core, -1);
      PartAfterSendKeepsInv(s, h, s.core, Completed(PhaseOf(s, h).result));
    }
  }

  lemma ReplayAnswerKeepsInv(s: State, h: nat, c: Core, answer: InterruptOutcome)
    requires Inv(s) && At(s, h) && PhaseOf(s, h).Replaying?
    requires CoreSound(c) && Grows(s.core, c, -1) && c.updatePending == s.core.updatePending
    requires answer.Wait? ==> Env(s, h).payload.Command? && IsRecord(c, answer.other, Env(s, h).payload.target)
    ensures var r := PhaseOf(s, h).result;
            match answer
            case Refused => Inv(Part(s, h, Send(c, Completed(r.(status := Failed)))))
            case Confirmed => Inv(Part(s, h, Send(c, Completed(r))))
            case Wait(other) => Inv(Move(s, h, (c, ReplayWaiting(r, other))))
  {
    var r := PhaseOf(s, h).result;
    match answer {
      case Refused => PartAfterSendKeepsInv(s, h, c, Completed(r.(status := Failed)));
      case Confirmed => PartAfterSendKeepsInv(s, h, c, Completed(r));
      case Wait(other) => ReplayWaitsKeepsInv(s, h, c, other);
    }
  }

  lemma ReplayWaitsKeepsInv(s: State, h: nat, c: Core, other: nat)
    requires Inv(s) && At(s, h) && PhaseOf(s, h).Replaying?
    requires CoreSound(c) && Grows(s.core, c, -1) && c.updatePending == s.core.updatePending
    requires Env(s, h).payload.Command? && IsRecord(c, other, Env(s, h).payload.target)
    ensures Inv(Move(s, h, (c, ReplayWaiting(PhaseOf(s, h).result, other))))
  {
    assert HandlerSound(s.core, s.handlers[h]);
    OthersStaySound(s.core, c, -1, s.handlers[h]);
    MoveKeepsInv(s, h, (c, ReplayWaiting(PhaseOf(s, h).result, other)), -1);
  }

  lemma PartAfterSendKeepsInv(s: State, h: nat, c: Core, m: Message)
    requires Inv(s) && At(s, h) && CoreSound(c) && Grows(s.core, c, -1)
    requires !OwnsUpdate(PhaseOf(s, h)) && c.updatePending == s.core.updatePending
    ensures Inv(Part(s, h, Send(c, m)))
  {
    SendGrows(c, m);
    GrowsTransitive(s.core, c, Send(c, m), -1);
    PartKeepsInv(s, h, Send(c, m));
  }

  lemma ReplayWakeKeepsInv(s: State, h: nat, queues: bool)
    requires Inv(s) && Enabled(s, ReplayWake(h, queues))
    ensures Inv(Apply(s, ReplayWake(h, queues)))
  {
    var p := s.handlers[h].phase;
    assert HandlerSound(s.core, s.handlers[h]);
    assert Grows(s.core, s.core, -1);
    if queues {
      SendGrows(s.core, Completed(s.core.heap[p.other].result));
      PartAfterSendKeepsInv(s, h, Send(s.core, Completed(s.core.heap[p.other].result)), Completed(p.result));
    } else {
      PartAfterSendKeepsInv(s, h, s.core, Completed(p.result.(status := Failed)));
    }
  }

  lemma WaiterStepsKeepInv(s: State, step: Step)
    requires Inv(s) && Enabled(s, step) && (step.DuplicateWake? || step.Leave?)
    ensures Inv(Apply(s, step))
  {
    var hd := s.handlers[step.h];
    assert HandlerSound(s.core, hd);
    assert Grows(s.core, s.core, -1);
    if step.DuplicateWake? {
      assert RecordSound(s.core, hd.phase.other);
      MoveKeepsInv(s, step.h, (s.core, Replaying(s.core.heap[hd.phase.other].result)), -1);
    } else if hd.phase.ReplayWaiting? {
      PartAfterSendKeepsInv(s, step.h, s.core, Completed(hd.phase.result.(status := Failed)));
    } else {
      PartKeepsInv(s, step.h, s.core);
    }
  }

  lemma CoreOnlyStepsKeepInv(s: State, step: Step)
    requires Inv(s) && Enabled(s, step) && (step.Probe? || step.Prune? || step.DamageReceipt?)
    ensures Inv(Apply(s, step))
  {
    var t := Apply(s, step);
    match step {
      case Probe(op, readable) =>
        forall m | t.core == Send(s.core, m) ensures CoreSound(t.core) && Grows(s.core, t.core, -1) { SendGrows(s.core, m); }
        assert t.core == s.core || exists m :: t.core == Send(s.core, m);
      case Prune(evict) => EvictGrows(s.core, evict);
      case DamageReceipt(op) => DiskGrows(s.core, op, Corrupt);
    }
    CoreStepKeepsInv(s, t.core);
  }

  /** Register-then-check against scan-then-set: whoever is past its gate is still
      an unfinished entry of the table, so the scan finds it. */
  lemma ScanSeesWhoeverPassedTheGate(s: State, g: nat)
    requires Inv(s) && At(s, g) && PhaseOf(s, g).Running? && Scanned(Env(s, g).kind)
    ensures ScanFindsActive(s.core)
  {
    var i := PhaseOf(s, g).exec;
    assert HandlerSound(s.core, s.handlers[g]);
    assert RecordSound(s.core, i);
    assert s.core.seen[Env(s, g).op] == i;
  }

  lemma PendingFlagKeepsHandlers(s: State, h: nat, pending: bool, phase: Phase)
    requires CoreSound(s.core) && HandlersSound(s) && OneHolder(s) && At(s, h)
    requires Holds(phase) ==> Holds(PhaseOf(s, h)) && phase.exec == PhaseOf(s, h).exec
    requires HandlerSound(s.core.(updatePending := pending), Handler(Env(s, h), phase))
    ensures var t := Move(s, h, (s.core.(updatePending := pending), phase));
            CoreSound(t.core) && HandlersSound(t) && OneHolder(t)
  {
    var c := s.core.(updatePending := pending);
    var t := Move(s, h, (c, phase));
    forall i: nat | i < |s.core.heap| ensures RecordSound(c, i) { assert RecordSound(s.core, i); }
    forall g | g in t.handlers ensures HandlerSound(c, t.handlers[g]) {
      if g != h { OthersStaySound(s.core, c, -1, s.handlers[g]); }
    }
    MoveKeepsOneHolder(s, h, (c, phase));
  }

  lemma StageScanKeepsInv(s: State, h: nat)
    requires Inv(s) && Enabled(s, StageScan(h))
    ensures Inv(Apply(s, StageScan(h)))
  {
    var t := Apply(s, StageScan(h));
    assert HandlerSound(s.core, s.handlers[h]);
    PendingFlagKeepsHandlers(s, h, t.core.updatePending, t.handlers[h].phase);
    if t.core.updatePending && !s.core.updatePending {
      assert OwnsUpdate(t.handlers[h].phase);
      forall g | g in t.handlers ensures !(t.handlers[g].phase.Running? && Scanned(t.handlers[g].env.kind)) {
        if g != h && PhaseOf(s, g).Running? && Scanned(Env(s, g).kind) { ScanSeesWhoeverPassedTheGate(s, g); }
      }
    } else {
      MoveKeepsUpdate(s, h, (t.core, t.handlers[h].phase));
    }
  }

  lemma OwnerKeepsOrReleases(s: State, h: nat, pending: bool, phase: Phase)
    requires UpdateOwned(s) && UpdateExclusive(s) && At(s, h) && OwnsUpdate(PhaseOf(s, h))
    requires pending == OwnsUpdate(phase) && !phase.Running?
    ensures var t := Move(s, h, (s.core.(updatePending := pending), phase)); UpdateOwned(t) && UpdateExclusive(t)
  {
    var t := Move(s, h, (s.core.(updatePending := pending), phase));
    assert pending ==> h in t.handlers && OwnsUpdate(t.handlers[h].phase);
  }

  lemma UpdateStepsKeepInv(s: State, step: Step)
    requires Inv(s) && Enabled(s, step) && (step.StageEnd? || step.ReleaseFailed?)
    ensures Inv(Apply(s, step))
  {
    var h, t := step.h, Apply(s, step);
    assert HandlerSound(s.core, s.handlers[h]);
    PendingFlagKeepsHandlers(s, h, t.core.updatePending, t.handlers[h].phase);
    OwnerKeepsOrReleases(s, h, t.core.updatePending, t.handlers[h].phase);
    assert t == Move(s, h, (s.core.(updatePending := t.core.updatePending), t.handlers[h].phase));
  }

  predicate IsBodyStep(step: Step) {
    step.Gate? || step.FinishBody? || step.TurnLookup? || step.StopWake? || step.GiveUp? || step.CheckReceipt?
    || step.InterruptBody? || step.InterruptWake? || step.StageScan? || step.StageEnd? || step.ReleaseFailed?
  }

  lemma BodyStepKeepsInv(s: State, step: Step)
    requires Inv(s) && Enabled(s, step) && IsBodyStep(step)
    ensures Inv(Apply(s, step))
  {
    match step
    case InterruptBody(h, readable, saves, queues, now) => InterruptBodyKeepsInv(s, h, readable, saves, queues, now);
    case InterruptWake(h, queues) => InterruptWakeKeepsInv(s, h, queues);
    case StageScan(h) => StageScanKeepsInv(s, h);
    case StageEnd(_, _) => UpdateStepsKeepInv(s, step);
    case ReleaseFailed(_) => UpdateStepsKeepInv(s, step);
    case _ => QuietBodyStepsKeepInv(s, step);
  }

  lemma OtherStepKeepsInv(s: State, step: Step)
    requires Inv(s) && Enabled(s, step) && !IsBodyStep(step)
    ensures Inv(Apply(s, step))
  {
    match step
    case Deliver(h, env) => DeliverKeepsInv(s, h, env);
    case Lookup(h, evict, readable) => LookupKeepsInv(s, h, evict, readable);
    case Save(h, saves) => SaveKeepsInv(s, h, saves);
    case Publish(h, now, size, evict) => PublishKeepsInv(s, h, now, size, evict);
    case Announce(h) => AnnounceKeepsInv(s, h);
    case ReportFailed(h, saves) => ReportFailedKeepsInv(s, h, saves);
    case Replay(h, readable, saves, queues, now) => ReplayKeepsInv(s, h, readable, saves, queues, now);
    case ReplayWake(h, queues) => ReplayWakeKeepsInv(s, h, queues);
    case DuplicateWake(_) => WaiterStepsKeepInv(s, step);
    case Leave(_) => WaiterStepsKeepInv(s, step);
    case Crash => CrashKeepsInv(s);
    case _ => CoreOnlyStepsKeepInv(s, step);
  }

  lemma StepKeepsInv(s: State, step: Step)
    requires Inv(s) && Enabled(s, step)
    ensures Inv(Apply(s, step))
  {
    if IsBodyStep(step) { BodyStepKeepsInv(s, step); } else { OtherStepKeepsInv(s, step); }
  }

  lemma CrashKeepsInv(s: State)
    ensures Inv(Apply(s, Crash))
  {
  }

  lemma {:induction false} RunKeepsInv(states: seq<State>, steps: seq<Step>, k: nat)
    requires Run(states, steps) && k < |states|
    ensures Inv(states[k])
  {
    if k > 0 {
      RunKeepsInv(states, steps, k - 1);
      StepKeepsInv(states[k - 1], steps[k - 1]);
    }
  }

  // ------------------------------------------------------------- at most once

  /** The step registers, and so starts, operation `op`. */
  predicate Starts(s: State, step: Step, op: OpId)
    requires Enabled(s, step)
  {
    step.Lookup? && Env(s, step.h).op == op && PhaseOf(Apply(s, step), step.h).Registered?
  }

  ghost predicate HasRecord(core: Core, op: OpId) {
    exists i: nat :: IsRecord(core, i, op)
  }

  /** A looked-up operation starts exactly when neither the table nor the disk knows it,
      whatever was evicted on the way. */
  lemma StartsExactlyWhenUnknown(s: State, h: nat, evict: set<OpId>, readable: bool)
    requires Inv(s) && Enabled(s, Lookup(h, evict, readable))
    ensures Starts(s, Lookup(h, evict, readable), Env(s, h).op) <==>
            readable && Env(s, h).op !in s.core.seen && Env(s, h).op !in s.core.disk
    ensures Starts(s, Lookup(h, evict, readable), Env(s, h).op) ==>
            !HasRecord(s.core, Env(s, h).op) && HasRecord(Apply(s, Lookup(h, evict, readable)).core, Env(s, h).op)
  {
    var op := Env(s, h).op;
    if op in evict { assert RecordSound(s.core, s.core.seen[op]); }
    if Starts(s, Lookup(h, evict, readable), op) {
      UnknownHasNoRecord(s.core, op);
      assert IsRecord(Apply(s, Lookup(h, evict, readable)).core, |s.core.heap|, op);
    }
  }

  predicate Extends(a: seq<Execution>, b: seq<Execution>) {
    |a| <= |b| && forall i: nat | i < |a| :: b[i].op == a[i].op
  }

  lemma InterruptSectionExtends(core: Core, env: Envelope, readable: bool, saves: bool, queues: bool, now: int)
    ensures Extends(core.heap, InterruptSection(core, env, readable, saves, queues, now).0.heap)
  {
  }

  lemma HeapGrows(s: State, step: Step)
    requires Enabled(s, step) && !step.Crash?
    ensures Extends(s.core.heap, Apply(s, step).core.heap)
  {
    if step.InterruptBody? || step.Replay? {
      InterruptSectionExtends(s.core, Env(s, step.h), step.readable, step.saves, step.queues, step.now);
    } else if step.Lookup? || step.Publish? || step.ReportFailed? {
    } else {
      assert Apply(s, step).core.heap == s.core.heap;
    }
  }

  /** Within one process records are only ever added. */
  lemma RecordsStay(s: State, step: Step, op: OpId)
    requires Enabled(s, step) && !step.Crash? && HasRecord(s.core, op)
    ensures HasRecord(Apply(s, step).core, op)
  {
    var i: nat :| IsRecord(s.core, i, op);
    HeapGrows(s, step);
    assert IsRecord(Apply(s, step).core, i, op);
  }

  lemma RecordStays(states: seq<State>, steps: seq<Step>, k: nat, op: OpId)
    requires Run(states, steps) && k < |steps| && !steps[k].Crash? && HasRecord(states[k].core, op)
    ensures HasRecord(states[k + 1].core, op)
  {
    RecordsStay(states[k], steps[k], op);
  }

  lemma {:induction false} RecordStaysUntilCrash(states: seq<State>, steps: seq<Step>, i: nat, j: nat, op: OpId)
    requires Run(states, steps) && i <= j < |states| && HasRecord(states[i].core, op)
    requires forall k | i <= k < j :: !steps[k].Crash?
    ensures HasRecord(states[j].core, op)
    decreases j
  {
    forall k: nat | i <= k < j ensures HasRecord(states[k].core, op) ==> HasRecord(states[k + 1].core, op) {
      if HasRecord(states[k].core, op) { RecordStays(states, steps, k, op); }
    }
    RecordsChain(states, i, j, op);
  }

  lemma {:induction false} RecordsChain(states: seq<State>, i: nat, j: nat, op: OpId)
    requires i <= j < |states| && HasRecord(states[i].core, op)
    requires forall k: nat | i <= k < j :: HasRecord(states[k].core, op) ==> HasRecord(states[k + 1].core, op)
    ensures HasRecord(states[j].core, op)
    decreases j
  {
    if i < j { RecordsChain(states, i, j - 1, op); }
  }

  lemma ReceiptsStay(states: seq<State>, steps: seq<Step>, k: nat)
    requires Run(states, steps) && k < |steps|
    ensures states[k].core.disk.Keys <= states[k + 1].core.disk.Keys
  {
    assert Enabled(states[k], steps[k]) && states[k + 1] == Apply(states[k], steps[k]);
  }

  lemma {:induction false} ReceiptsOnlyGrow(states: seq<State>, i: nat, j: nat)
    requires i <= j < |states|
    requires forall k | i <= k < j :: states[k].core.disk.Keys <= states[k + 1].core.disk.Keys
    ensures states[i].core.disk.Keys <= states[j].core.disk.Keys
    decreases j
  {
    if i < j { ReceiptsOnlyGrow(states, i, j - 1); }
  }

  lemma ReceiptStaysForever(states: seq<State>, steps: seq<Step>, i: nat, j: nat)
    requires Run(states, steps) && i <= j < |states|
    ensures states[i].core.disk.Keys <= states[j].core.disk.Keys
  {
    forall k | i <= k < j ensures states[k].core.disk.Keys <= states[k + 1].core.disk.Keys {
      ReceiptsStay(states, steps, k);
    }
    ReceiptsOnlyGrow(states, i, j);
  }

  /** For every interleaving of duplicates, evictions, failed saves and crashes: two
      starts of one operation ID have a crash between them. */
  lemma AtMostOncePerProcess(states: seq<State>, steps: seq<Step>, i: nat, j: nat, op: OpId)
    requires Run(states, steps) && i < j < |steps|
    requires Starts(states[i], steps[i], op) && Starts(states[j], steps[j], op)
    ensures exists k :: i < k < j && steps[k].Crash?
  {
    RunKeepsInv(states, steps, i);
    RunKeepsInv(states, steps, j);
    StartsExactlyWhenUnknown(states[i], steps[i].h, steps[i].evict, steps[i].readable);
    StartsExactlyWhenUnknown(states[j], steps[j].h, steps[j].evict, steps[j].readable);
    if forall k | i < k < j :: !steps[k].Crash? {
      RecordStaysUntilCrash(states, steps, i + 1, j, op);
      assert false;
    }
  }

  /** Once its receipt is on disk an operation never starts again, in any process. */
  lemma NeverStartsAfterReceipt(states: seq<State>, steps: seq<Step>, i: nat, j: nat, op: OpId)
    requires Run(states, steps) && i <= j < |steps| && op in states[i].core.disk
    ensures !Starts(states[j], steps[j], op)
  {
    ReceiptStaysForever(states, steps, i, j);
    if Starts(states[j], steps[j], op) {
      RunKeepsInv(states, steps, j);
      StartsExactlyWhenUnknown(states[j], steps[j].h, steps[j].evict, steps[j].readable);
    }
  }

  // ------------------------------------------------------ interruption is final

  predicate Targets(env: Envelope, target: OpId) {
    env.kind.OperationInterrupt? && env.payload.Command? && env.payload.target == target
  }

  /** The step lets an `operation.interrupt` of `target` succeed, in its body or in a replay that
      carries it out again. */
  predicate ConfirmsInterrupt(s: State, step: Step, target: OpId)
    requires Enabled(s, step)
  {
    match step
    case InterruptBody(h, _, _, _, _) => Targets(Env(s, h), target) && PhaseOf(Apply(s, step), h).Finished?
      && PhaseOf(Apply(s, step), h).result.status.Succeeded?
    case InterruptWake(h, queues) => Targets(Env(s, h), target) && queues
    case Replay(h, readable, saves, queues, now) => Targets(Env(s, h), target) && PhaseOf(s, h).result.status.Succeeded?
      && InterruptSection(s.core, Env(s, h), readable, saves, queues, now).1.Confirmed?
    case ReplayWake(h, queues) => Targets(Env(s, h), target) && queues
    case _ => false
  }

  ghost predicate HasCompleted(core: Core, op: OpId) {
    exists i: nat :: IsRecord(core, i, op) && core.heap[i].done
  }

  /** An interruption is confirmed only for a target that is on disk (a tombstone or a
      receipt) or has completed in this process; if it did not have to wait, on disk. */
  lemma ConfirmedMeansSettled(s: State, step: Step, target: OpId)
    requires Inv(s) && Enabled(s, step) && ConfirmsInterrupt(s, step, target)
    ensures var c := Apply(s, step).core; target in c.disk || HasCompleted(c, target)
    ensures step.InterruptBody? || step.Replay? ==> target in Apply(s, step).core.disk
  {
    var t := Apply(s, step);
    assert HandlerSound(s.core, s.handlers[step.h]);
    if step.InterruptWake? || step.ReplayWake? {
      assert IsRecord(t.core, PhaseOf(s, step.h).other, target);
    }
  }

  /** Once an interruption has succeeded, first or again in a replay, its target had already
      completed or never starts again; with a receipt on disk that holds across restarts as well. */
  lemma InterruptionIsFinal(states: seq<State>, steps: seq<Step>, k: nat, j: nat, target: OpId)
    requires Run(states, steps) && k < j < |steps| && ConfirmsInterrupt(states[k], steps[k], target)
    ensures target in states[k + 1].core.disk || HasCompleted(states[k + 1].core, target)
    ensures target in states[k + 1].core.disk ==> !Starts(states[j], steps[j], target)
    ensures Starts(states[j], steps[j], target) ==> exists c :: k < c < j && steps[c].Crash?
  {
    RunKeepsInv(states, steps, k);
    ConfirmedMeansSettled(states[k], steps[k], target);
    if target in states[k + 1].core.disk {
      NeverStartsAfterReceipt(states, steps, k + 1, j, target);
    } else if Starts(states[j], steps[j], target) {
      StartNeedsCrash(states, steps, k + 1, j, target);
    }
  }

  lemma StartNeedsCrash(states: seq<State>, steps: seq<Step>, i: nat, j: nat, op: OpId)
    requires Run(states, steps) && i <= j < |steps|
    requires HasRecord(states[i].core, op) && Starts(states[j], steps[j], op)
    ensures exists c :: i <= c < j && steps[c].Crash?
  {
    RunKeepsInv(states, steps, j);
    StartsExactlyWhenUnknown(states[j], steps[j].h, steps[j].evict, steps[j].readable);
    if forall c | i <= c < j :: !steps[c].Crash? {
      RecordStaysUntilCrash(states, steps, i, j, op);
      assert false;
    }
  }

  /** The handler reports a successful interruption, and its payload is one that can be carried out. */
  predicate RepeatsInterrupt(s: State, h: nat) {
    && At(s, h) && PhaseOf(s, h).Replaying? && PhaseOf(s, h).result.status.Succeeded?
    && Env(s, h).kind.OperationInterrupt? && Env(s, h).payload.Command?
    && !Text.IsBlank(Env(s, h).payload.target) && CanInterruptOperation(Env(s, h).payload.targetKind)
  }

  /** A replay finds its target neither in the table nor on disk, and can write a tombstone. */
  predicate EntombsInReplay(s: State, step: Step) {
    && step.Replay? && RepeatsInterrupt(s, step.h) && step.readable && step.saves
    && Env(s, step.h).payload.target !in s.core.seen && Env(s, step.h).payload.target !in s.core.disk
  }

  /** What a replay sends about a tombstone that it has written. */
  function EntombedMessages(env: Envelope, result: OperationResult, queues: bool): set<Message>
    requires env.payload.Command?
  {
    if queues then {Completed(Tombstone(env.payload.target)), Completed(result)}
    else {Completed(result.(status := Failed))}
  }

  /** A tombstone is written for the target, and both results are sent. */
  lemma ReplayEntombs(s: State, step: Step)
    requires Enabled(s, step) && EntombsInReplay(s, step)
    ensures var env := Env(s, step.h);
      Apply(s, step) == Part(s, step.h, AddTombstone(s.core, env.payload.target, env.payload.targetKind, step.now)
        .(sent := s.core.sent + EntombedMessages(env, PhaseOf(s, step.h).result, step.queues)))
  {
    var env, result := Env(s, step.h), PhaseOf(s, step.h).result;
    assert s.core.sent + {Completed(Tombstone(env.payload.target))} + {Completed(result)}
        == s.core.sent + {Completed(Tombstone(env.payload.target)), Completed(result)};
  }

  /** Every step of a replay, whatever fails: it changes more than the messages sent if and only if the
      target of a successful interruption is unknown to table and disk and its tombstone is written. */
  lemma ReplayWritesExactly(s: State, step: Step)
    requires Enabled(s, step) && (step.Replay? || step.ReplayWake? || step.Leave?)
    ensures var c := Apply(s, step).core;
      && (c.(sent := s.core.sent) != s.core <==> EntombsInReplay(s, step))
      && s.core.sent <= c.sent
    ensures EntombsInReplay(s, step) ==>
      var env := Env(s, step.h);
      Apply(s, step) == Part(s, step.h, AddTombstone(s.core, env.payload.target, env.payload.targetKind, step.now)
        .(sent := s.core.sent + EntombedMessages(env, PhaseOf(s, step.h).result, step.queues)))
  {
    if EntombsInReplay(s, step) {
      ReplayEntombs(s, step);
      hide Apply;
    }
  }

  /** Replaying a successful interruption whose target's receipt is readable queues that
      receipt again and then its own result, and changes nothing else. */
  lemma ReplayOnlyRequeues(s: State, h: nat, saves: bool, now: int)
    requires RepeatsInterrupt(s, h)
    requires Env(s, h).payload.target !in s.core.seen
    requires Load(s.core.disk, Env(s, h).payload.target, true).Found?
    ensures var receipt := Load(s.core.disk, Env(s, h).payload.target, true).result;
            Apply(s, Replay(h, true, saves, true, now)) ==
            State(s.core.(sent := s.core.sent + {Completed(receipt), Completed(PhaseOf(s, h).result)}), s.handlers - {h})
  {
    var receipt := Load(s.core.disk, Env(s, h).payload.target, true).result;
    assert s.core.sent + {Completed(receipt)} + {Completed(PhaseOf(s, h).result)}
        == s.core.sent + {Completed(receipt), Completed(PhaseOf(s, h).result)};
  }

  /** The same when the target's completed execution is still in the table. */
  lemma ReplayOnlyRequeuesFromTable(s: State, h: nat, saves: bool, now: int)
    requires Inv(s) && RepeatsInterrupt(s, h)
    requires var t := Env(s, h).payload.target;
             t in s.core.seen && s.core.heap[s.core.seen[t]].kind == Env(s, h).payload.targetKind
             && s.core.heap[s.core.seen[t]].done
    ensures var t := Apply(s, Replay(h, true, saves, true, now));
            var receipt := s.core.heap[s.core.seen[Env(s, h).payload.target]].result;
            && Enabled(t, ReplayWake(h, true))
            && Apply(t, ReplayWake(h, true)) ==
               State(s.core.(sent := s.core.sent + {Completed(receipt), Completed(PhaseOf(s, h).result)}), s.handlers - {h})
  {
    var receipt := s.core.heap[s.core.seen[Env(s, h).payload.target]].result;
    var t := Apply(s, Replay(h, true, saves, true, now));
    assert t.core == s.core && t.handlers - {h} == s.handlers - {h};
    assert s.core.sent + {Completed(receipt)} + {Completed(PhaseOf(s, h).result)}
        == s.core.sent + {Completed(receipt), Completed(PhaseOf(s, h).result)};
  }

  // ------------------------------------------------------------ update exclusion

  /** In every reachable state: a pending update has exactly one live owner, every owner
      is behind a pending update, and no operation the update waits for is in its body. */
  lemma UpdateExclusion(states: seq<State>, steps: seq<Step>, k: nat)
    requires Run(states, steps) && k < |states|
    ensures states[k].core.updatePending <==>
            exists h :: h in states[k].handlers && OwnsUpdate(states[k].handlers[h].phase)
    ensures forall g, h | g in states[k].handlers && h in states[k].handlers
                          && OwnsUpdate(states[k].handlers[g].phase) && OwnsUpdate(states[k].handlers[h].phase) :: g == h
    ensures states[k].core.updatePending ==>
            forall h | h in states[k].handlers && Scanned(states[k].handlers[h].env.kind) :: !states[k].handlers[h].phase.Running?
  {
    RunKeepsInv(states, steps, k);
  }

  lemma RunExtends(states: seq<State>, steps: seq<Step>, step: Step)
    requires Run(states, steps) && Enabled(states[|steps|], step)
    ensures Run(states + [Apply(states[|steps|], step)], steps + [step])
  {
    var ss, ts := states + [Apply(states[|steps|], step)], steps + [step];
    forall k | 0 <= k < |ts| ensures Enabled(ss[k], ts[k]) && ss[k + 1] == Apply(ss[k], ts[k]) {
      if k < |steps| { assert ss[k] == states[k] && ts[k] == steps[k] && ss[k + 1] == states[k + 1]; }
    }
  }

  /** Delivering, looking up and gating a fresh operation puts it in its body. */
  lemma RunStartsBody(states: seq<State>, steps: seq<Step>, h: nat, env: Envelope) returns (ss: seq<State>, ts: seq<Step>)
    requires Run(states, steps) && h !in states[|steps|].handlers && env.op != ""
    requires var c := states[|steps|].core; env.op !in c.seen && env.op !in c.disk && !c.updatePending
    requires DecodedFirst(env.kind) ==> env.payload.Command?
    ensures Run(ss, ts)
    ensures var c := states[|steps|].core;
            && ss[|ts|].core == c.(heap := c.heap + [NewExecution(env)], seen := c.seen[env.op := |c.heap|], sent := c.sent + {Started(env.op)})
            && ss[|ts|].handlers == states[|steps|].handlers[h := Handler(env, Running(|c.heap|))]
  {
    var s0 := states[|steps|];
    RunExtends(states, steps, Deliver(h, env));
    var s1 := Apply(s0, Deliver(h, env));
    assert Evict(s1.core, {}) == s1.core;
    RunExtends(states + [s1], steps + [Deliver(h, env)], Lookup(h, {}, true));
    var s2 := Apply(s1, Lookup(h, {}, true));
    assert PhaseOf(s2, h) == Registered(|s0.core.heap|);
    ss, ts := states + [s1] + [s2], steps + [Deliver(h, env)] + [Lookup(h, {}, true)];
    RunExtends(ss, ts, Gate(h));
    var s3 := Apply(s2, Gate(h));
    ss, ts := ss + [s3], ts + [Gate(h)];
    assert s3.handlers == s0.handlers[h := Handler(env, Running(|s0.core.heap|))];
  }

  /** Whatever an update does not wait for can be in its body while the update is pending, gated
      or not: every envelope of such a kind has a run that shows it. */
  lemma UnscannedKindEscapes(env: Envelope, update: Envelope) returns (states: seq<State>, steps: seq<Step>)
    requires !Scanned(env.kind) && env.op != "" && (DecodedFirst(env.kind) ==> env.payload.Command?)
    requires update.kind.AgentUpdate? && update.payload.Command? && update.op != "" && update.op != env.op
    ensures Run(states, steps)
    ensures var s := states[|steps|];
            s.core.updatePending && 0 in s.handlers && s.handlers[0].env == env && s.handlers[0].phase.Running?
  {
    states, steps := [State(Core([], map[], map[], false, {}), map[])], [];
    states, steps := RunStartsBody(states, steps, 0, env);
    states, steps := RunStartsBody(states, steps, 1, update);
    var s := states[|steps|];
    assert s.core.heap == [NewExecution(env), NewExecution(update)];
    assert !ScanFindsActive(s.core);
    RunExtends(states, steps, StageScan(1));
    states, steps := states + [Apply(s, StageScan(1))], steps + [StageScan(1)];
  }

  /** No run has an operation of this kind in its body while an update is pending. */
  ghost predicate Excluded(kind: Kind) {
    forall states: seq<State>, steps: seq<Step>, k: nat, h: nat |
      Run(states, steps) && k < |states| && states[k].core.updatePending && h in states[k].handlers ::
        states[k].handlers[h].env.kind == kind ==> !states[k].handlers[h].phase.Running?
  }

  /** Update exclusion is exact: it holds for the kinds that the update scans for, and for no other. */
  lemma ExcludedExactlyWhenScanned(kind: Kind)
    ensures Excluded(kind) <==> Scanned(kind)
  {
    if Scanned(kind) {
      forall states: seq<State>, steps: seq<Step>, k: nat, h: nat |
        Run(states, steps) && k < |states| && states[k].core.updatePending && h in states[k].handlers
        ensures states[k].handlers[h].env.kind == kind ==> !states[k].handlers[h].phase.Running?
      {
        UpdateExclusion(states, steps, k);
      }
    } else {
      var env, update := Envelope("a", kind, Command("", kind)), Envelope("b", AgentUpdate, Command("", AgentUpdate));
      assert env.op[0] != update.op[0];
      var states, steps := UnscannedKindEscapes(env, update);
      assert states[|steps|].handlers[0].env.kind == kind && states[|steps|].handlers[0].phase.Running?;
    }
  }

  lemma RunStep(states: seq<State>, steps: seq<Step>, step: Step) returns (ss: seq<State>, ts: seq<Step>)
    requires Run(states, steps) && Enabled(states[|steps|], step)
    ensures Run(ss, ts) && |ts| == |steps| + 1 && ts[|steps|] == step
    ensures ss[|steps|] == states[|steps|] && ss[|ts|] == Apply(states[|steps|], step)
  {
    RunExtends(states, steps, step);
    ss, ts := states + [Apply(states[|steps|], step)], steps + [step];
  }

  function Stop(i: OpId, t: OpId, kind: Kind): Envelope { Envelope(i, OperationInterrupt, Command(t, kind)) }

  /** An operation and an interruption that waits for it are both in their bodies. */
  lemma InterruptionWaits(t: OpId, i: OpId, kind: Kind) returns (states: seq<State>, steps: seq<Step>)
    requires !Text.IsBlank(t) && i != "" && t != i && CanInterruptOperation(kind)
    ensures Run(states, steps)
    ensures var s, e := states[|steps|], Envelope(t, kind, Malformed);
      && s.core.heap == [NewExecution(e), NewExecution(Stop(i, t, kind))] && s.core.disk == map[]
      && s.core.seen == map[t := 0, i := 1]
      && s.handlers == map[0 := Handler(e, Running(0)), 1 := Handler(Stop(i, t, kind), Interrupting(1, 0))]
  {
    states, steps := [State(Core([], map[], map[], false, {}), map[])], [];
    states, steps := RunStartsBody(states, steps, 0, Envelope(t, kind, Malformed));
    states, steps := RunStartsBody(states, steps, 1, Stop(i, t, kind));
    states, steps := RunStep(states, steps, InterruptBody(1, true, true, true, 0));
  }

  /** The operation succeeds, and its receipt cannot be saved. */
  lemma TargetIsUnsaved(t: OpId, i: OpId, kind: Kind) returns (states: seq<State>, steps: seq<Step>)
    requires !Text.IsBlank(t) && i != "" && t != i && CanInterruptOperation(kind)
    ensures Run(states, steps)
    ensures var s, done := states[|steps|], Outcome(t, Succeeded, Plain, None);
      && |s.core.heap| == 2 && s.core.disk == map[]
      && s.handlers == map[0 := Handler(Envelope(t, kind, Malformed), Saved(0, done, false, false)),
                           1 := Handler(Stop(i, t, kind), Interrupting(1, 0))]
  {
    states, steps := InterruptionWaits(t, i, kind);
    states, steps := RunStep(states, steps, FinishBody(0, Completes, Plain));
    states, steps := RunStep(states, steps, Save(0, false));
  }

  /** Its result is published and sent. */
  lemma TargetIsReported(t: OpId, i: OpId, kind: Kind) returns (states: seq<State>, steps: seq<Step>)
    requires !Text.IsBlank(t) && i != "" && t != i && CanInterruptOperation(kind)
    ensures Run(states, steps)
    ensures var s := states[|steps|];
      && |s.core.heap| == 2 && s.core.heap[0].done && s.core.disk == map[]
      && s.handlers == map[1 := Handler(Stop(i, t, kind), Interrupting(1, 0))]
      && Completed(Outcome(t, Succeeded, Plain, None)) in s.core.sent
  {
    states, steps := TargetIsUnsaved(t, i, kind);
    states, steps := RunStep(states, steps, Publish(0, 0, 0, {}));
    states, steps := RunStep(states, steps, Announce(0));
  }

  /** The waiting interruption succeeds and is saved, and the Agent restarts. */
  lemma InterruptionIsSaved(t: OpId, i: OpId, kind: Kind) returns (states: seq<State>, steps: seq<Step>)
    requires !Text.IsBlank(t) && i != "" && t != i && CanInterruptOperation(kind)
    ensures Run(states, steps)
    ensures var c := states[|steps|].core;
      && c == Core([], map[], map[i := Readable(Outcome(i, Succeeded, Plain, None))], false, c.sent)
      && Completed(Outcome(t, Succeeded, Plain, None)) in c.sent && states[|steps|].handlers == map[]
  {
    states, steps := TargetIsReported(t, i, kind);
    states, steps := RunStep(states, steps, InterruptWake(1, true));
    states, steps := RunStep(states, steps, Save(1, true));
    states, steps := RunStep(states, steps, Crash);
  }

  /** It is delivered again and found on disk. */
  lemma InterruptionIsReplayed(t: OpId, i: OpId, kind: Kind) returns (states: seq<State>, steps: seq<Step>)
    requires !Text.IsBlank(t) && i != "" && t != i && CanInterruptOperation(kind)
    ensures Run(states, steps)
    ensures var s := states[|steps|];
      && s.core.seen == map[] && t !in s.core.disk && RepeatsInterrupt(s, 2) && Env(s, 2) == Stop(i, t, kind)
      && Completed(Outcome(t, Succeeded, Plain, None)) in s.core.sent
  {
    states, steps := InterruptionIsSaved(t, i, kind);
    states, steps := RunStep(states, steps, Deliver(2, Stop(i, t, kind)));
    assert Evict(states[|steps|].core, {}) == states[|steps|].core;
    states, steps := RunStep(states, steps, Lookup(2, {}, true));
  }

  /** Such a replay happens: in this run an operation succeeds and is reported, only its interruption is
      saved, and after a restart the replay saves and reports the same operation as cancelled. */
  lemma ReplayCanCancelCompletedTarget(t: OpId, i: OpId, kind: Kind) returns (states: seq<State>, steps: seq<Step>, k: nat)
    requires !Text.IsBlank(t) && i != "" && t != i && CanInterruptOperation(kind)
    ensures Run(states, steps) && |steps| == k + 1 && EntombsInReplay(states[k], steps[k])
    ensures Completed(Outcome(t, Succeeded, Plain, None)) in states[k].core.sent && t !in states[k].core.disk
    ensures Completed(Outcome(t, Cancelled, Plain, None)) in states[k + 1].core.sent
    ensures t in states[k + 1].core.disk && states[k + 1].core.disk[t] == Readable(Outcome(t, Cancelled, Plain, None))
  {
    states, steps := InterruptionIsReplayed(t, i, kind);
    k := |steps|;
    ReplayEntombs(states[k], Replay(2, true, true, true, 0));
    states, steps := RunStep(states, steps, Replay(2, true, true, true, 0));
  }

  /** Without a receipt the bound is per process only: here one operation starts, the
      process dies in its body, and a second delivery starts it again. */
  lemma RestartRepeatsUnfinishedOperation(env: Envelope) returns (states: seq<State>, steps: seq<Step>, i: nat, j: nat)
    requires env.op != "" && (DecodedFirst(env.kind) ==> env.payload.Command?)
    ensures Run(states, steps) && i < j < |steps|
    ensures Starts(states[i], steps[i], env.op) && Starts(states[j], steps[j], env.op)
  {
    var s0 := State(Core([], map[], map[], false, {}), map[]);
    var s1 := Apply(s0, Deliver(0, env));
    assert Evict(s1.core, {}) == s1.core;
    var s2 := Apply(s1, Lookup(0, {}, true));
    var s3 := Apply(s2, Crash);
    var s4 := Apply(s3, Deliver(0, env));
    assert Evict(s4.core, {}) == s4.core;
    var s5 := Apply(s4, Lookup(0, {}, true));
    states := [s0, s1, s2, s3, s4, s5];
    steps := [Deliver(0, env), Lookup(0, {}, true), Crash, Deliver(0, env), Lookup(0, {}, true)];
    i, j := 1, 4;
  }
}
