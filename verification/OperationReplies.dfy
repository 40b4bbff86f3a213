/** What the Agent tells the control plane about an operation: the answer to every probe, and the
    result that an execution saves, publishes and sends. */
module OperationReplies {
  import opened Options
  import opened Protocol
  import opened OperationCache
  import opened OperationEngine
  import opened OperationSafety
  import S = SafeRelease
  import Text

  // ------------------------------------------------ every active record has an owner

  predicate HeldBy(s: State, h: nat, i: nat) {
    h in s.handlers && Holds(s.handlers[h].phase) && s.handlers[h].phase.exec == i
  }

  /** A record that is not done belongs to a goroutine between registration and `done`. */
  ghost predicate RecordsHeld(s: State) {
    forall i: nat | i < |s.core.heap| && !s.core.heap[i].done :: exists h :: HeldBy(s, h, i)
  }

  /** A goroutine of the operation lies between registration and `done`. */
  ghost predicate Held(s: State, op: OpId) {
    exists h :: h in s.handlers && s.handlers[h].env.op == op && Holds(s.handlers[h].phase)
  }

  lemma HolderGoesOn(s: State, step: Step, h: nat)
    requires Enabled(s, step) && h in s.handlers && Holds(s.handlers[h].phase)
    ensures var t := Apply(s, step);
      step.Crash? || (step.Publish? && step.h == h) || HeldBy(t, h, s.handlers[h].phase.exec)
  {
  }

  /** The steps that may change a record or queue a message. */
  predicate TouchesRecords(step: Step) {
    step.Lookup? || step.InterruptBody? || step.InterruptWake? || step.Publish? || step.Announce? || step.ReportFailed?
    || step.Replay? || step.ReplayWake? || step.Leave? || step.Probe? || step.Crash?
  }

  lemma OthersTouchNothing(s: State, step: Step)
    requires Enabled(s, step) && !TouchesRecords(step)
    ensures Apply(s, step).core.heap == s.core.heap && Apply(s, step).core.sent == s.core.sent
  {
  }

  predicate ChangesRecords(step: Step) { step.Lookup? || step.Publish? || step.ReportFailed? || step.Crash? }

  lemma ChangedRecordOrigin(s: State, step: Step, i: nat)
    requires Enabled(s, step) && ChangesRecords(step)
    requires i < |Apply(s, step).core.heap| && !Apply(s, step).core.heap[i].done
    ensures !step.Crash?
    ensures i < |s.core.heap| ==> !s.core.heap[i].done && !(step.Publish? && PhaseOf(s, step.h).exec == i)
    ensures i >= |s.core.heap| ==> step.Lookup? && HeldBy(Apply(s, step), step.h, i)
  {
  }

  lemma InterruptionKeepsRecord(s: State, step: Step, i: nat)
    requires Enabled(s, step) && (step.InterruptBody? || step.Replay?)
    requires i < |Apply(s, step).core.heap| && !Apply(s, step).core.heap[i].done
    ensures i < |s.core.heap| && !s.core.heap[i].done
  {
    InterruptSectionAdds(s.core, Env(s, step.h), step.readable, step.saves, step.queues, step.now, i, OwnedLost(""));
    hide InterruptSection;
  }

  lemma KeptRecordOrigin(s: State, step: Step)
    requires Enabled(s, step) && TouchesRecords(step) && !ChangesRecords(step) && !step.InterruptBody? && !step.Replay?
    ensures Apply(s, step).core.heap == s.core.heap
  {
  }

  lemma ActiveRecordOrigin(s: State, step: Step, i: nat)
    requires Enabled(s, step) && i < |Apply(s, step).core.heap| && !Apply(s, step).core.heap[i].done
    ensures !step.Crash?
    ensures i < |s.core.heap| ==> !s.core.heap[i].done && !(step.Publish? && PhaseOf(s, step.h).exec == i)
    ensures i >= |s.core.heap| ==> step.Lookup? && HeldBy(Apply(s, step), step.h, i)
  {
    hide Apply, Enabled;
    if !TouchesRecords(step) {
      OthersTouchNothing(s, step);
    } else if ChangesRecords(step) {
      ChangedRecordOrigin(s, step, i);
    } else if step.InterruptBody? || step.Replay? {
      InterruptionKeepsRecord(s, step, i);
    } else {
      KeptRecordOrigin(s, step);
    }
  }

  /** The interruption of an operation adds no active record and no ownership reply. */
  lemma InterruptSectionAdds(core: Core, env: Envelope, readable: bool, saves: bool, queues: bool, now: int, i: nat, m: Message)
    ensures var c := InterruptSection(core, env, readable, saves, queues, now).0;
      && (i < |c.heap| && !c.heap[i].done ==> i < |core.heap| && !core.heap[i].done)
      && (m in c.sent && m !in core.sent ==> m.Completed?)
  {
  }

  lemma StepKeepsRecordsHeld(s: State, step: Step)
    requires RecordsHeld(s) && Enabled(s, step)
    ensures RecordsHeld(Apply(s, step))
  {
    var t := Apply(s, step);
    hide Apply, Enabled;
    forall i: nat | i < |t.core.heap| && !t.core.heap[i].done ensures exists h :: HeldBy(t, h, i) {
      ActiveRecordOrigin(s, step, i);
      if i < |s.core.heap| {
        var h :| HeldBy(s, h, i);
        HolderGoesOn(s, step, h);
      }
    }
  }

  lemma {:induction false} RunKeepsRecordsHeld(states: seq<State>, steps: seq<Step>, k: nat)
    requires Run(states, steps) && k < |states|
    ensures RecordsHeld(states[k])
  {
    if k > 0 {
      RunKeepsRecordsHeld(states, steps, k - 1);
      StepKeepsRecordsHeld(states[k - 1], steps[k - 1]);
    }
  }

  // ------------------------------------------------------------------ probe replies

  lemma HeldIsActive(s: State, op: OpId)
    requires Inv(s) && RecordsHeld(s)
    ensures Held(s, op) <==> op in s.core.seen && !s.core.heap[s.core.seen[op]].done
  {
    if Held(s, op) {
      var h :| h in s.handlers && s.handlers[h].env.op == op && Holds(s.handlers[h].phase);
      S.HolderIsSeen(s, h);
      assert HandlerSound(s.core, s.handlers[h]);
      assert RecordSound(s.core, s.handlers[h].phase.exec);
    }
    if op in s.core.seen && !s.core.heap[s.core.seen[op]].done {
      var h :| HeldBy(s, h, s.core.seen[op]);
      assert HandlerSound(s.core, s.handlers[h]);
    }
  }

  /** A probe queues one message or none: "active" exactly for a held operation, "lost" exactly for one
      that is neither in the table nor on disk, the result exactly for one that is done or on disk, and
      nothing for a receipt that cannot be read. */
  lemma ProbeAnswers(s: State, op: OpId, readable: bool) returns (answer: Option<Message>)
    requires Inv(s) && RecordsHeld(s)
    ensures Apply(s, Probe(op, readable)) ==
      s.(core := s.core.(sent := s.core.sent + if answer.Some? then {answer.value} else {}))
    ensures answer == Some(OwnedActive(op)) <==> Held(s, op)
    ensures answer == Some(OwnedLost(op)) <==> op !in s.core.seen && op !in s.core.disk && readable
    ensures forall r :: answer == Some(Completed(r)) <==>
      if op in s.core.seen then !Held(s, op) && r == s.core.heap[s.core.seen[op]].result
      else readable && op in s.core.disk && s.core.disk[op] == Readable(r) && r.op == op
    ensures answer.Some? ==> answer.value == OwnedActive(op) || answer.value == OwnedLost(op) || answer.value.Completed?
  {
    HeldIsActive(s, op);
    hide Held;
    if op in s.core.seen {
      var e := s.core.heap[s.core.seen[op]];
      answer := Some(if e.done then Completed(e.result) else OwnedActive(op));
    } else {
      match Load(s.core.disk, op, readable)
      case Found(r) => answer := Some(Completed(r));
      case Missing => answer := Some(OwnedLost(op));
      case Unreadable => answer := None; assert s.core.sent + {} == s.core.sent;
    }
  }

  /** The step queues this message for the first time. */
  predicate Queues(s: State, step: Step, m: Message)
    requires Enabled(s, step)
  {
    m !in s.core.sent && m in Apply(s, step).core.sent
  }

  lemma OwnershipIsQueuedByProbes(s: State, step: Step, op: OpId)
    requires Enabled(s, step) && (Queues(s, step, OwnedLost(op)) || Queues(s, step, OwnedActive(op)))
    ensures step.Probe?
  {
    hide Apply, Enabled;
    if !TouchesRecords(step) {
      OthersTouchNothing(s, step);
    } else if !step.Probe? {
      StepQueuesNoOwnership(s, step, OwnedLost(op));
      StepQueuesNoOwnership(s, step, OwnedActive(op));
    }
  }

  lemma StepQueuesNoOwnership(s: State, step: Step, m: Message)
    requires Enabled(s, step) && TouchesRecords(step) && !step.Probe?
    ensures m in Apply(s, step).core.sent && m !in s.core.sent ==> m.Completed? || m.Started?
  {
    if step.InterruptBody? || step.Replay? {
      InterruptSectionAdds(s.core, Env(s, step.h), step.readable, step.saves, step.queues, step.now, 0, m);
      hide InterruptSection;
    }
  }

  /** Over every run: the first "lost" is queued only while no goroutine of the operation lies between
      registration and `done` and no receipt of it is on disk, readable or not; the first "active" only
      while there is such a goroutine. */
  lemma OwnershipRepliesAreTrue(states: seq<State>, steps: seq<Step>, k: nat, op: OpId)
    requires Run(states, steps) && k < |steps|
    ensures Queues(states[k], steps[k], OwnedLost(op)) ==>
      !Held(states[k], op) && op !in states[k].core.disk && op !in states[k].core.seen
    ensures Queues(states[k], steps[k], OwnedActive(op)) ==> Held(states[k], op)
  {
    if Queues(states[k], steps[k], OwnedLost(op)) || Queues(states[k], steps[k], OwnedActive(op)) {
      OwnershipIsQueuedByProbes(states[k], steps[k], op);
      RunKeepsInv(states, steps, k);
      RunKeepsRecordsHeld(states, steps, k);
      hide Held, Apply, Enabled, RecordsHeld, Inv;
      var answer := ProbeAnswers(states[k], steps[k].op, steps[k].readable);
    }
  }

  /** In every reachable state a probe of a held operation is answered "active", and not "lost". */
  lemma HeldIsAnsweredActive(states: seq<State>, steps: seq<Step>, k: nat, op: OpId, readable: bool)
    requires Run(states, steps) && k < |states| && Held(states[k], op)
    ensures var t := Apply(states[k], Probe(op, readable)); t.core.sent == states[k].core.sent + {OwnedActive(op)}
  {
    RunKeepsInv(states, steps, k);
    RunKeepsRecordsHeld(states, steps, k);
    hide Held, Apply, Enabled, RecordsHeld, Inv;
    var answer := ProbeAnswers(states[k], op, readable);
  }

  // ------------------------------------------------------------------ own results

  /** How the body of an ordinary operation ends: a turn whose context or error was cancelled is
      interrupted, a read-only operation whose context was cancelled is cancelled, and nothing else is. */
  lemma BodyEndsExactly(s: State, h: nat, end: BodyEnd, note: Note)
    requires Enabled(s, FinishBody(h, end, note))
    ensures var t, kind := Apply(s, FinishBody(h, end, note)), Env(s, h).kind;
      && t.core == s.core && PhaseOf(t, h).Finished? && PhaseOf(t, h).exec == PhaseOf(s, h).exec
      && var r := PhaseOf(t, h).result;
         && r.op == Env(s, h).op && r.stopped == None && r.note == note
         && (r.status == Succeeded <==> end.Completes?)
         && (r.status == Interrupted <==> IsTurn(kind) && end.Errs? && (end.errCancelled || end.ctxCancelled))
         && (r.status == Cancelled <==> CanInterruptOperation(kind) && end.Errs? && end.ctxCancelled)
  {
  }

  /** Whatever a body ends with is saved if the disk takes it, published in its record, and sent. */
  lemma ResultIsRecorded(s: State, h: nat, saves: bool, now: int, size: nat)
    requires At(s, h) && PhaseOf(s, h).Finished? && PhaseOf(s, h).exec < |s.core.heap|
    ensures var p := PhaseOf(s, h);
      var saved := Apply(s, Save(h, saves));
      && (saves ==> p.result.op in saved.core.disk && saved.core.disk[p.result.op] == Readable(p.result))
      && (!saves ==> saved.core == s.core)
      && Enabled(saved, Publish(h, now, size, {}))
      && var published := Apply(saved, Publish(h, now, size, {}));
         && published.core.heap[p.exec] == s.core.heap[p.exec].(done := true, result := p.result, size := size,
              completedAt := now, persisted := saves)
         && Enabled(published, Announce(h)) && Completed(p.result) in Apply(published, Announce(h)).core.sent
         && (h in Apply(published, Announce(h)).handlers <==> p.staged)
  {
  }

  /** A repeated delivery of an operation that is done runs nothing: it is answered with the result that was
      published, unless it has to carry out an interruption again. */
  lemma RepetitionIsAnswered(s: State, h: nat, readable: bool)
    requires Inv(s) && At(s, h) && PhaseOf(s, h).Arrived? && !Env(s, h).kind.OperationInterrupt?
    requires Env(s, h).op in s.core.seen && s.core.heap[s.core.seen[Env(s, h).op]].done
    ensures var r := s.core.heap[s.core.seen[Env(s, h).op]].result;
      var looked := Apply(s, Lookup(h, {}, readable));
      && Enabled(looked, DuplicateWake(h))
      && var waked := Apply(looked, DuplicateWake(h));
         && Enabled(waked, Replay(h, true, true, true, 0))
         && Apply(waked, Replay(h, true, true, true, 0)) ==
              State(s.core.(sent := s.core.sent + {Completed(r)}), s.handlers - {h})
  {
    assert Evict(s.core, {}) == s.core;
    var waked := Apply(Apply(s, Lookup(h, {}, readable)), DuplicateWake(h));
    assert waked.core == s.core && waked.handlers - {h} == s.handlers - {h};
  }

  /** The same for one that is only on disk: it is answered with its receipt, or as failed if the receipt
      cannot be read. */
  lemma ReceiptIsAnswered(s: State, h: nat, readable: bool)
    requires At(s, h) && PhaseOf(s, h).Arrived? && !Env(s, h).kind.OperationInterrupt?
    requires Env(s, h).op !in s.core.seen && (Env(s, h).op in s.core.disk || !readable)
    ensures var op, looked := Env(s, h).op, Apply(s, Lookup(h, {}, readable));
      var r := if Load(s.core.disk, op, readable).Found? then Load(s.core.disk, op, readable).result
        else OperationResult(op, Failed, Plain, None);
      && Enabled(looked, Replay(h, true, true, true, 0))
      && Apply(looked, Replay(h, true, true, true, 0)) ==
           State(s.core.(sent := s.core.sent + {Completed(r)}), s.handlers - {h})
  {
    assert Evict(s.core, {}) == s.core;
    var looked := Apply(s, Lookup(h, {}, readable));
    assert looked.core == s.core && looked.handlers - {h} == s.handlers - {h};
  }

  // ------------------------------------------------------------- gates and interruptions

  /** While an update is pending the gate turns away exactly the kinds that check the flag, and a malformed
      skill command is turned away in any case. */
  lemma GateTurnsAwayExactly(s: State, h: nat)
    requires Enabled(s, Gate(h))
    ensures var t, kind := Apply(s, Gate(h)), Env(s, h).kind;
      var checks := kind in {GeminiTurnStart, GeminiTurnRewrite, ClaudeTurnStart, CodexTurnStart, CodexTurnRewrite,
        ClaudeThreadFork, GeminiThreadFork, GitWorktreeCreate, GeminiSkillsManage, ClaudeSkillsList};
      var skills := kind in {GeminiSkillsManage, ClaudeSkillsList};
      && t.core == s.core
      && PhaseOf(t, h) ==
           if (checks && s.core.updatePending) || (skills && Env(s, h).payload.Malformed?)
           then Finished(PhaseOf(s, h).exec, OperationResult(Env(s, h).op, Failed, Plain, None), false)
           else Running(PhaseOf(s, h).exec)
  {
  }

  /** What an interruption does, by what it names: a command that cannot be carried out and a target of
      another kind fail it; a target in the table makes it wait; a readable receipt is sent again; and only
      a target in neither place gets a tombstone. */
  lemma InterruptionSettles(s: State, h: nat, readable: bool, saves: bool, queues: bool, now: int)
    requires Inv(s) && Enabled(s, InterruptBody(h, readable, saves, queues, now))
    ensures var t, target := Apply(s, InterruptBody(h, readable, saves, queues, now)), Env(s, h).payload.target;
      var exec, kind := PhaseOf(s, h).exec, Env(s, h).payload.targetKind;
      var fails := PhaseOf(t, h) == Finished(exec, OperationResult(Env(s, h).op, Failed, Plain, None), false);
      var succeeds := PhaseOf(t, h) == Finished(exec, OperationResult(Env(s, h).op, Succeeded, Plain, None), false);
      if Text.IsBlank(target) || !CanInterruptOperation(kind) then t.core == s.core && fails
      else if target in s.core.seen then
        t.core == s.core && if s.core.heap[s.core.seen[target]].kind == kind
                            then PhaseOf(t, h) == Interrupting(exec, s.core.seen[target]) else fails
      else if !readable || (target in s.core.disk && Load(s.core.disk, target, true).Unreadable?) then t.core == s.core && fails
      else if target in s.core.disk then
        if queues then succeeds && t.core == s.core.(sent := s.core.sent + {Completed(Load(s.core.disk, target, true).result)})
        else fails && t.core == s.core
      else if !saves then t.core == s.core && fails
      else
        && (if queues then succeeds else fails) && target in t.core.seen
        && t.core.disk == s.core.disk[target := Readable(OperationResult(target, Cancelled, Plain, None))]
        && t.core.sent == s.core.sent + (if queues then {Completed(OperationResult(target, Cancelled, Plain, None))} else {})
        && var e := t.core.heap[t.core.seen[target]];
           e.done && e.persisted && e.kind == kind && e.result == OperationResult(target, Cancelled, Plain, None)
  {
    assert s.core.sent + {} == s.core.sent;
  }

  /** An interruption that waited sends its target's result, and succeeds if it could be queued; one that
      ran out of time fails. */
  lemma WaitSettles(s: State, h: nat, queues: bool)
    requires Enabled(s, InterruptWake(h, queues))
    ensures var t, r := Apply(s, InterruptWake(h, queues)), s.core.heap[PhaseOf(s, h).other].result;
      && PhaseOf(t, h) == Finished(PhaseOf(s, h).exec,
           OperationResult(Env(s, h).op, if queues then Succeeded else Failed, Plain, None), false)
      && t.core == s.core.(sent := s.core.sent + if queues then {Completed(r)} else {})
    ensures PhaseOf(Apply(s, GiveUp(h)), h) ==
      Finished(PhaseOf(s, h).exec, OperationResult(Env(s, h).op, Failed, Plain, None), false)
  {
    assert s.core.sent + {} == s.core.sent;
  }

  /** A turn interrupt waits exactly for an execution of its own family in the table; once that is done it
      reports the turn as stopped. */
  lemma TurnStopSettles(s: State, h: nat)
    requires Inv(s) && Enabled(s, TurnLookup(h))
    ensures var t, target, exec := Apply(s, TurnLookup(h)), Env(s, h).payload.target, PhaseOf(s, h).exec;
      var matches := target in s.core.seen && InterruptMatches(Env(s, h).kind, s.core.heap[s.core.seen[target]].kind);
      && t.core == s.core
      && PhaseOf(t, h) == (if matches then Stopping(exec, s.core.seen[target]) else Checking(exec))
      && (matches ==> (Enabled(t, StopWake(h)) <==> s.core.heap[s.core.seen[target]].done))
      && (Enabled(t, StopWake(h)) ==>
            && Apply(t, StopWake(h)).core == s.core
            && PhaseOf(Apply(t, StopWake(h)), h) ==
                 Finished(exec, OperationResult(Env(s, h).op, Succeeded, Plain, Some(target)), false))
  {
  }

  /** Whoever waits for another goroutine may leave at a shutdown or deadline: a repeated delivery without a
      word, and a replayed interruption as failed. */
  lemma LeavingSettles(s: State, h: nat)
    requires At(s, h) && (PhaseOf(s, h).AwaitingDuplicate? || PhaseOf(s, h).ReplayWaiting?)
    ensures Enabled(s, Leave(h)) && h !in Apply(s, Leave(h)).handlers
    ensures PhaseOf(s, h).AwaitingDuplicate? ==> Apply(s, Leave(h)).core == s.core
    ensures PhaseOf(s, h).ReplayWaiting? ==>
      Apply(s, Leave(h)).core ==
        s.core.(sent := s.core.sent + {Completed(PhaseOf(s, h).result.(status := Failed))})
  {
  }

  /** An update reserves the flag exactly when it is free and no operation it waits for is active; it
      gives it back unless a restart follows. */
  lemma UpdateReservesExactly(s: State, h: nat, outcome: StageOutcome)
    requires Inv(s) && Enabled(s, StageScan(h))
    ensures var t := Apply(s, StageScan(h));
      var busy := exists id | id in s.core.seen ::
        (Scanned(s.core.heap[s.core.seen[id]].kind) && !s.core.heap[s.core.seen[id]].done);
      if s.core.updatePending || busy
      then t.core == s.core && PhaseOf(t, h).Finished? && PhaseOf(t, h).result.status == Failed
      else
        && t.core == s.core.(updatePending := true) && Enabled(t, StageEnd(h, outcome))
        && var u := Apply(t, StageEnd(h, outcome));
           && (u.core.updatePending <==> outcome.StageReady?) && PhaseOf(u, h).Finished?
           && (PhaseOf(u, h).result.status == Failed <==> outcome.StageFailed?)
           && (PhaseOf(u, h).result.status == Succeeded <==> !outcome.StageFailed?)
  {
  }

  /** The kinds that each rule is about. */
  lemma KindsExactly(kind: Kind, other: Kind)
    ensures IsTurn(kind) <==> kind in {GeminiTurnStart, GeminiTurnRewrite, ClaudeTurnStart}
    ensures IsTurnInterrupt(kind) <==> kind in {GeminiTurnInterrupt, ClaudeTurnInterrupt}
    ensures CanInterruptOperation(kind) <==> kind in {
      GitWorkspaceInspect, InventoryScan, WorkspaceFiles, WorkspaceChanges, WorkspaceFilePreview, WorkspaceDiffPreview}
    ensures Scanned(kind) <==> kind in {
      GeminiTurnStart, GeminiTurnRewrite, ClaudeTurnStart, GeminiThreadFork, GitWorktreeCreate, GeminiSkillsManage}
    ensures InterruptMatches(kind, other) <==> (kind, other) in {
      (ClaudeTurnInterrupt, ClaudeTurnStart), (GeminiTurnInterrupt, GeminiTurnStart), (GeminiTurnInterrupt, GeminiTurnRewrite)}
  {
  }
}
