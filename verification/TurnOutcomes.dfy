/** What each message leaves in the two rows of a turn, and how the end of a turn's body on the Agent
    arrives there. */
module TurnOutcomes {
  import opened Options
  import opened Protocol
  import opened TurnOwnership
  import E = OperationEngine

  /** Only this thread's status has changed. */
  predicate OnlyThread(before: Rows, after: Rows, thread: ThreadId) {
    && after.ops == before.ops && after.threads.Keys == before.threads.Keys
    && (forall t | t in before.threads :: after.threads[t].current == before.threads[t].current)
    && (forall t | t in before.threads && t != thread :: after.threads[t] == before.threads[t])
  }

  /** Only the status of this operation's row has changed, among the operations. */
  predicate OnlyEnded(before: Rows, after: Rows, op: OpId, status: Status) {
    op in before.ops && after.ops == before.ops[op := before.ops[op].(status := Ended(status))]
  }

  predicate CutShort(r: OperationResult) {
    r.status.Cancelled? || r.status.Interrupted? || (r.status.Failed? && r.note.ContextCanceled?)
  }

  // -------------------------------------------------------------------- results

  /** The result of a turn ends its row, and leaves its thread idle, stopped or broken if it is current. */
  lemma TurnResultSettles(rows: Rows, r: OperationResult, thread: ThreadId)
    requires OpActive(rows, r.op) && IsTurn(rows.ops[r.op].kind) && rows.ops[r.op].thread == thread
    requires IsCurrent(rows, thread, r.op)
    ensures var after, was := HandleStep(rows, ResultMessage(r)), rows.threads[thread].status.Interrupting?;
      && OnlyThread(rows.(ops := after.ops), after, thread)
      && (after.threads[thread].status == Idle <==> r.status.Succeeded? && !was)
      && (after.threads[thread].status == Stopped <==> was || CutShort(r))
      && (after.threads[thread].status == Broken <==> !was && r.status.Failed? && !r.note.ContextCanceled?)
    ensures OnlyEnded(rows, HandleStep(rows, ResultMessage(r)), r.op, if CutShort(r) then Cancelled else r.status)
  {
  }

  /** A late turn's result moves no thread. */
  lemma LateTurnMovesNoThread(rows: Rows, r: OperationResult)
    requires OpActive(rows, r.op) && IsTurn(rows.ops[r.op].kind) && !IsCurrent(rows, rows.ops[r.op].thread, r.op)
    ensures HandleStep(rows, ResultMessage(r)).threads == rows.threads
    ensures OnlyEnded(rows, HandleStep(rows, ResultMessage(r)), r.op, if CutShort(r) then Cancelled else r.status)
  {
  }

  /** A result for any other kind, or for an operation that is over, settles no thread. */
  lemma OtherResultsMoveNoThread(rows: Rows, r: OperationResult)
    requires !OpActive(rows, r.op) || !(IsTurn(rows.ops[r.op].kind) || IsTurnInterrupt(rows.ops[r.op].kind))
    ensures HandleStep(rows, ResultMessage(r)).threads == rows.threads
    ensures if OpActive(rows, r.op) then OnlyEnded(rows, HandleStep(rows, ResultMessage(r)), r.op, r.status)
      else HandleStep(rows, ResultMessage(r)) == rows
  {
  }

  /** The interruption that a Claude or Gemini interrupt reports is accepted. */
  predicate Accepted(rows: Rows, row: OpRow, r: OperationResult) {
    && r.status.Succeeded? && r.stopped == Some(row.target) && OpActive(rows, row.target)
    && (row.kind.GeminiTurnInterrupt? ==>
          IsCurrent(rows, row.thread, row.target) && rows.threads[row.thread].status.Interrupting?)
  }

  /** An interrupt ends its target exactly when its receipt names it and the target is active, a Gemini
      turn only while its thread waits for that; the target is then cancelled and its thread stopped. */
  lemma StopEndsExactly(rows: Rows, r: OperationResult)
    requires RowsSound(rows) && OpActive(rows, r.op) && IsTurnInterrupt(rows.ops[r.op].kind)
    ensures var row, after := rows.ops[r.op], HandleStep(rows, ResultMessage(r));
      && after.ops[r.op].status == Ended(r.status)
      && (after.ops[row.target].status != rows.ops[row.target].status <==> Accepted(rows, row, r))
      && (Accepted(rows, row, r) ==> after.ops[row.target].status == Ended(Cancelled))
      && (Accepted(rows, row, r) && IsCurrent(rows, row.thread, row.target) ==>
            after.threads[row.thread].status == Stopped)
      && (r.status.Succeeded? && !Accepted(rows, row, r) ==> after.threads == rows.threads)
  {
  }

  /** An interrupt that was itself cancelled moves nothing; one that lost its owner pauses the thread of
      a delivered turn; any other failure hands the thread back, to a pause if it was recovering. */
  lemma FailedInterruptSettles(rows: Rows, r: OperationResult)
    requires RowsSound(rows) && OpActive(rows, r.op) && IsTurnInterrupt(rows.ops[r.op].kind) && !r.status.Succeeded?
    ensures var row, after := rows.ops[r.op], HandleStep(rows, ResultMessage(r));
      var mine := IsCurrent(rows, row.thread, row.target);
      var busy := mine && rows.threads[row.thread].status in {Waiting, Running, Interrupting};
      var waits := mine && rows.threads[row.thread].status.Interrupting?;
      && OnlyEnded(rows, after, r.op, r.status)
      && (after.threads == if r.status.Cancelled? then rows.threads
          else if r.note.OwnershipLost? then
            if busy && Owned(rows.ops[row.target].status) then rows.threads[row.thread := ThreadRow(row.target, Stopped)]
            else rows.threads
          else if waits then rows.threads[row.thread := ThreadRow(row.target, if row.recovery then Stopped else Running)]
          else rows.threads)
  {
  }

  // ------------------------------------------------------------------ other messages

  /** "Lost" pauses the thread of a delivered turn that is busy, "active" takes back a pause; neither
      does anything else. */
  lemma OwnershipReplySettles(rows: Rows, op: OpId, active: bool)
    ensures var after := HandleStep(rows, OwnershipMessage(op, active));
      var mine := op in rows.ops && IsTurn(rows.ops[op].kind) && rows.ops[op].status in {Delivered, Executing}
        && IsCurrent(rows, rows.ops[op].thread, op);
      if mine && active && rows.threads[rows.ops[op].thread].status == Stopped
      then after == rows.(threads := rows.threads[rows.ops[op].thread := ThreadRow(op, Running)])
      else if mine && !active && rows.threads[rows.ops[op].thread].status in {Waiting, Running, Interrupting}
      then after == rows.(threads := rows.threads[rows.ops[op].thread := ThreadRow(op, Stopped)])
      else after == rows
  {
    if op in rows.ops && IsCurrent(rows, rows.ops[op].thread, op) {
      var t := rows.threads[rows.ops[op].thread];
      assert t == ThreadRow(op, t.status);
    }
  }

  lemma FirstEventSettles(rows: Rows, thread: ThreadId, op: OpId)
    ensures var after := HandleStep(rows, InitMessage(thread, op));
      if IsCurrent(rows, thread, op) && OpActive(rows, op) && IsTurn(rows.ops[op].kind)
         && rows.threads[thread].status in {Waiting, Running}
      then after == rows.(threads := rows.threads[thread := ThreadRow(op, Running)]) else after == rows
  {
  }

  lemma StartIsRecorded(rows: Rows, op: OpId)
    ensures var after := HandleStep(rows, StartedMessage(op));
      && after.threads == rows.threads && after.ops.Keys == rows.ops.Keys
      && forall o | o in rows.ops ::
           after.ops[o] == if o == op && OpActive(rows, op) then rows.ops[o].(status := Executing) else rows.ops[o]
  {
  }

  // --------------------------------------------------------------- requests by users

  /** A request to stop cancels a turn that was not sent, and otherwise queues one interrupt of it. */
  lemma InterruptRequestSettles(rows: Rows, thread: ThreadId, interrupt: OpId)
    requires MayInterrupt(rows, thread, interrupt)
    ensures var after, t := InterruptStep(rows, thread, interrupt), rows.threads[thread].current;
      if rows.ops[t].status.Queued? then
        OnlyEnded(rows, after, t, Cancelled) && after.threads == rows.threads[thread := ThreadRow(t, Stopped)]
      else
        && after.threads == rows.threads[thread := ThreadRow(t, Interrupting)]
        && after.ops - {interrupt} == rows.ops && after.ops[interrupt].target == t
        && after.ops[interrupt].thread == thread && after.ops[interrupt].status == Queued
        && (after.ops[interrupt].recovery <==> rows.threads[thread].status.Stopped?)
        && InterruptMatches(after.ops[interrupt].kind, rows.ops[t].kind)
  {
  }

  /** A turn may be queued on a thread that is idle or broken, or stopped for good; an interrupt may be asked
    for while the thread's active turn waits or runs, or is paused after it was delivered; and only a
    Gemini turn that is found cancelled is followed up with an interrupt of its own. */
  lemma RequestsAreAccepted(rows: Rows, thread: ThreadId, op: OpId, kind: Kind)
    requires Fresh(rows, op) && thread in rows.threads && rows.threads[thread].current in rows.ops
    ensures var current, status := rows.threads[thread].current, rows.threads[thread].status;
      var row := rows.ops[current];
      && (MayQueueTurn(rows, thread, op, kind) <==>
            IsTurn(kind) && (status in {Idle, Broken} || (status == Stopped && row.status.Ended?)))
      && (MayInterrupt(rows, thread, op) <==>
            IsTurn(row.kind) && !row.status.Ended?
            && (status in {Waiting, Running} || (status == Stopped && row.status in {Delivered, Executing})))
      && (MayFollowUp(rows, current, op) <==> IsGeminiTurn(row.kind) && row.status == Ended(Cancelled))
      && (MayFollowUp(rows, current, op) ==>
            FollowUpStep(rows, current, op) ==
              rows.(ops := rows.ops[op := OpRow(GeminiTurnInterrupt, row.thread, current, false, Queued)]))
  {
  }

  /** The whole life of an undisturbed turn: queued, claimed, started, first event, result. */
  lemma UndisturbedTurn(rows: Rows, thread: ThreadId, op: OpId, kind: Kind, r: OperationResult)
    requires MayQueueTurn(rows, thread, op, kind) && r.op == op && r.status.Succeeded?
    ensures var queued := QueueTurnStep(rows, thread, op, kind);
      var sent := ClaimStep(queued, op);
      var started := HandleStep(sent, StartedMessage(op));
      var running := HandleStep(started, InitMessage(thread, op));
      var done := HandleStep(running, ResultMessage(r));
      && queued.threads[thread] == ThreadRow(op, Waiting) && queued.ops[op] == OpRow(kind, thread, "", false, Queued)
      && sent.ops[op].status == Delivered && started.ops[op].status == Executing
      && running.threads[thread] == ThreadRow(op, Running)
      && done.threads[thread] == ThreadRow(op, Idle) && done.ops[op].status == Ended(Succeeded)
      && done.ops - {op} == rows.ops && done.threads - {thread} == rows.threads - {thread}
  {
  }

  // ---------------------------------------------------- from the Agent to the rows

  /** However the body of a turn ends on the Agent, its result settles the running thread: idle if it
      completed, stopped if it was cancelled, broken if it failed. */
  lemma BodyEndReachesThread(s: E.State, h: nat, end: E.BodyEnd, note: Note, rows: Rows)
    requires E.Enabled(s, E.FinishBody(h, end, note))
    requires OpActive(rows, E.Env(s, h).op) && rows.ops[E.Env(s, h).op].kind == E.Env(s, h).kind && IsTurn(E.Env(s, h).kind)
    requires IsCurrent(rows, rows.ops[E.Env(s, h).op].thread, E.Env(s, h).op)
    requires rows.threads[rows.ops[E.Env(s, h).op].thread].status.Running?
    ensures var op := E.Env(s, h).op;
      var thread, finished := rows.ops[op].thread, E.PhaseOf(E.Apply(s, E.FinishBody(h, end, note)), h);
      && finished.Finished?
      && var after := HandleStep(rows, ResultMessage(finished.result));
         && (end.Completes? ==> after.threads[thread].status == Idle && after.ops[op].status == Ended(Succeeded))
         && (end.Errs? && (end.errCancelled || end.ctxCancelled || note.ContextCanceled?) ==>
               after.threads[thread].status == Stopped && after.ops[op].status == Ended(Cancelled))
         && (end.Errs? && !end.errCancelled && !end.ctxCancelled && !note.ContextCanceled? ==>
               after.threads[thread].status == Broken && after.ops[op].status == Ended(Failed))
  {
  }

  /** The operation is an interrupt of a delivered turn, and the turn's thread waits for it. */
  predicate WaitsForStop(rows: Rows, i: OpId) {
    && OpActive(rows, i) && IsTurnInterrupt(rows.ops[i].kind)
    && OpActive(rows, rows.ops[i].target) && Owned(rows.ops[rows.ops[i].target].status)
    && IsCurrent(rows, rows.ops[i].thread, rows.ops[i].target) && rows.threads[rows.ops[i].thread].status.Interrupting?
  }

  /** An interrupt that finds neither an execution nor a receipt of its turn pauses the thread and leaves
      the turn active; one that finds the receipt ends it. */
  lemma InterruptAnswerReachesThread(s: E.State, h: nat, rows: Rows)
    requires E.Enabled(s, E.CheckReceipt(h, true)) && RowsSound(rows)
    requires WaitsForStop(rows, E.Env(s, h).op) && rows.ops[E.Env(s, h).op].target == E.Env(s, h).payload.target
    ensures var i, finished := E.Env(s, h).op, E.PhaseOf(E.Apply(s, E.CheckReceipt(h, true)), h);
      && finished.Finished?
      && var t, after := rows.ops[i].target, HandleStep(rows, ResultMessage(finished.result));
         && (t !in s.core.disk ==> OpActive(after, t) && after.threads[rows.ops[i].thread] == ThreadRow(t, Stopped))
         && (E.Load(s.core.disk, t, true).Found? ==>
               after.ops[t].status == Ended(Cancelled) && after.threads[rows.ops[i].thread] == ThreadRow(t, Stopped))
         && (E.Load(s.core.disk, t, true).Unreadable? ==>
               OpActive(after, t)
               && after.threads[rows.ops[i].thread] == ThreadRow(t, if rows.ops[i].recovery then Stopped else Running))
  {
  }
}
