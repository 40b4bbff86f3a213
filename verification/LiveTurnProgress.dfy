/** What a live Claude input stream does for its callers: which instructions and answers it takes, that
  * each of them is written, and when the stream closes. */
module LiveTurnProgress {
  import opened Options
  import opened LiveTurn

  // ---------------------------------------------------------------------- steering

  /** Initialization makes the stream ready, and only a failed report ends the reader. */
  lemma InitializedIsReady(t: Turn, ok: bool)
    requires t.reader == Reading
    ensures var u := Apply(t, DoInitialized(ok));
      u == t.(ready := true, reader := if t.steering && !ok then Stopped else Reading)
  {
  }

  /** With the write lock free an instruction is taken exactly when it is new, the stream is ready and
    * open, and fewer than 32 were taken before; nothing else changes. */
  lemma SteerIsTakenExactly(t: Turn, id: Id, content: Content)
    ensures var u := Apply(t, DoAdmitSteer(id, content));
      if t.writer == Free && id !in t.inputs && t.ready && !t.closed && |t.inputs| < 32
      then u == t.(writer := Sending(id), inputs := u.inputs) && u.inputs.Keys == t.inputs.Keys + {id}
        && u.inputs - {id} == t.inputs && u.inputs[id] == Input(content, false, false, false, 0, 0, 0, 0)
      else u == t
  {
  }

  /** An instruction that was taken is written once, with its content, and the lock is free again. */
  lemma TakenSteerIsWritten(t: Turn, id: Id, content: Content)
    requires t.writer == Free && id !in t.inputs && t.ready && !t.closed && |t.inputs| < 32
    ensures var u := Apply(Apply(Apply(t, DoAdmitSteer(id, content)), DoSendSteer(true, true)), DoSettleSteer);
      u == t.(inputs := t.inputs[id := Input(content, false, false, false, 1, 0, 0, 0)])
  {
    var a := Apply(t, DoAdmitSteer(id, content));
    var b := Apply(a, DoSendSteer(true, true));
    assert b.inputs == t.inputs[id := Input(content, false, false, false, 1, 0, 0, 0)];
  }

  /** One line is one write; a line that could not be encoded is none, and counts as failed. */
  lemma LineIsWrittenOnce(t: Turn, id: Id, encoded: bool, ok: bool)
    requires t.writer == Sending(id) && id in t.inputs
    ensures var u := Apply(t, DoSendSteer(encoded, ok));
      && u == t.(writer := Sent(id, encoded && ok), inputs := u.inputs) && u.inputs.Keys == t.inputs.Keys
      && u.inputs[id] == t.inputs[id].(writes := t.inputs[id].writes + Once(encoded))
      && forall i | i in t.inputs && i != id :: u.inputs[i] == t.inputs[i]
  {
  }

  /** A failed write wakes its caller with an error, unless the CLI has echoed the line already. */
  lemma FailedSteerIsReported(t: Turn, id: Id, ok: bool)
    requires t.writer == Sent(id, ok) && id in t.inputs
    ensures var was, u := t.inputs[id], Apply(t, DoSettleSteer);
      && u == t.(writer := Free, inputs := u.inputs) && u.inputs.Keys == t.inputs.Keys
      && u.inputs[id] == (if ok || was.received then was
          else was.(received := true, failed := true, wakes := was.wakes + 1))
      && forall i | i in t.inputs && i != id :: u.inputs[i] == t.inputs[i]
  {
  }

  function Once(condition: bool): nat { if condition then 1 else 0 }

  /** The first echo wakes the callers, the first echo that says so reports the instruction as applied,
    * and a report that fails ends the reader before anything else is recorded. */
  lemma EchoSettles(t: Turn, id: Id, applied: bool, acceptedOK: bool, appliedOK: bool)
    requires t.reader == Reading && id in t.inputs
    ensures var was, u := t.inputs[id], Apply(t, DoAcknowledge(id, applied, acceptedOK, appliedOK));
      var first := !was.received;
      var reports := (was.received || acceptedOK) && applied && !was.applied;
      u == t.(inputs := t.inputs[id := Input(was.content, true, was.applied || reports, was.failed, was.writes,
                was.wakes + Once(first), was.appliedReports + Once(reports), was.unconfirmedReports)],
              reader := if (first && !acceptedOK) || (reports && !appliedOK) then Stopped else Reading)
  {
    var was := t.inputs[id];
    assert was == Input(was.content, was.received, was.applied, was.failed, was.writes, was.wakes, was.appliedReports,
      was.unconfirmedReports);
    assert t == t.(reader := Reading);
  }

  // ----------------------------------------------------------------------- closing

  /** Nothing can still use the stream. */
  predicate Idle(t: Turn) {
    && t.background <= 0
    && (forall id | id in t.inputs :: t.inputs[id].applied)
    && (forall q | q in t.questions :: t.questions[q].answers.Some? || t.questions[q].cancelled)
  }

  /** A result closes an idle stream; a result that finds it busy is held back until the last background
    * task ends, and closes it then if nothing has come in between. */
  lemma HeldResultCloses(t: Turn, queued: int, ok: bool)
    requires t.reader == Reading && !t.closed && t.background > 0 && Idle(t.(background := 0))
    ensures var u := Apply(Apply(Apply(t, DoResult(queued, true)), DoBackgroundTasks(0)), DoResult(0, ok));
      && (u.closed <==> queued == 0) && (u.closedByResult <==> queued == 0 || t.closedByResult)
      && (u.ready <==> t.ready && queued != 0) && (u.reader == Stopped <==> queued == 0 && !ok)
    ensures var v := Apply(Apply(Apply(t, DoResult(queued, true)), DoProgress), DoBackgroundTasks(0)); !v.closed && v.reader == Reading
  {
    var held := Apply(t, DoResult(queued, true));
    assert held == t.(lastResult := true, queued := queued);
  }

  lemma ResultClosesIdle(t: Turn, queued: int, ok: bool)
    requires t.reader == Reading && !t.closed
    ensures var u := Apply(t, DoResult(queued, ok));
      && (u.closed <==> Idle(t) && queued == 0)
      && (u.closed ==> u.closedByResult && !u.ready && (u.reader == Stopped <==> !ok))
      && (!u.closed ==> u == t.(lastResult := true, queued := queued))
  {
  }

  // --------------------------------------------------------------------- questions

  /** A new question is open, and holds the stream open until it is answered or cancelled. */
  lemma QuestionHoldsStream(t: Turn, id: Id, queued: int, ok: bool)
    requires t.reader == Reading && id !in t.questions && !t.closed
    ensures var asked := Apply(t, DoAskQuestion(id, true));
      && asked.questions == t.questions[id := Question(None, false, [])] && !asked.lastResult
      && !Apply(asked, DoResult(queued, ok)).closed
      && var cancelled := Apply(asked, DoCancelQuestion(id, true));
         cancelled.questions[id].cancelled && (Idle(cancelled) <==> Idle(t))
  {
    var asked := Apply(t, DoAskQuestion(id, true));
    assert asked.questions[id].answers.None?;
    var cancelled := Apply(asked, DoCancelQuestion(id, true));
    assert forall q | q in t.questions :: q in cancelled.questions && cancelled.questions[q] == t.questions[q];
  }

  /** With the write lock free an answer is taken exactly for an open question of an open stream, while
    * the operation is live and the answer fits; nothing else changes. */
  lemma AnswerIsTakenExactly(t: Turn, id: Id, answers: Content, live: bool, valid: bool)
    ensures var u := Apply(t, DoAdmitAnswer(id, answers, live, valid));
      if t.writer == Free && live && valid && !t.closed && id in t.questions
         && !t.questions[id].cancelled && t.questions[id].answers.None?
      then u == t.(writer := Answering(id, answers),
                   questions := t.questions[id := Question(Some(answers), false, t.questions[id].sent)])
      else u == t
  {
  }

  /** An answer that was taken is reported, written once and the lock is free again; if the report fails
    * it is not written. */
  lemma TakenAnswerIsWritten(t: Turn, id: Id, answers: Content)
    requires t.writer == Answering(id, answers) && id in t.questions && t.questions[id].sent == []
    ensures Apply(Apply(t, DoReportAnswer(true)), DoWriteAnswer(true)) ==
      t.(writer := Free, questions := t.questions[id := t.questions[id].(sent := [answers])])
    ensures Apply(t, DoReportAnswer(false)) == t.(writer := Free)
  {
    assert [] + [answers] == [answers];
  }

  /** A write that failed withdraws the question, so that it is not answered again. */
  lemma FailedAnswerIsWithdrawn(t: Turn, id: Id, answers: Content)
    requires t.writer == Releasing(id, answers) && id in t.questions
    ensures var u := Apply(Apply(t, DoWriteAnswer(false)), DoWithdrawAnswer);
      && u == t.(writer := Free, questions := u.questions) && u.questions.Keys == t.questions.Keys
      && u.questions[id] == t.questions[id].(sent := t.questions[id].sent + [answers], cancelled := true)
      && forall q | q in t.questions && q != id :: u.questions[q] == t.questions[q]
  {
  }

  /** Cancelling a question marks it, and ends the reader exactly if it was known and the report failed. */
  lemma CancelSettles(t: Turn, id: Id, ok: bool)
    requires t.reader == Reading
    ensures var u := Apply(t, DoCancelQuestion(id, ok));
      && (u.reader == Stopped <==> id in t.questions && !ok)
      && u == t.(reader := u.reader, questions := u.questions) && u.questions.Keys == t.questions.Keys
      && forall q | q in t.questions ::
           u.questions[q] == if q == id then t.questions[q].(cancelled := true) else t.questions[q]
  {
  }

  /** The end of the process closes the stream for good, wakes every caller that still waits with an error,
    * and reports every instruction that was not applied. */
  lemma FinishSettles(t: Turn)
    requires t.reader == Stopped
    ensures var u := Apply(t, DoFinish);
      && u == t.(ready := false, closed := true, reader := Done, inputs := u.inputs) && u.inputs.Keys == t.inputs.Keys
      && forall i | i in t.inputs ::
           && u.inputs[i].received && u.inputs[i].content == t.inputs[i].content
           && u.inputs[i].applied == t.inputs[i].applied && u.inputs[i].writes == t.inputs[i].writes
           && (u.inputs[i].failed <==> t.inputs[i].failed || !t.inputs[i].received)
           && u.inputs[i].wakes == t.inputs[i].wakes + Once(!t.inputs[i].received)
           && u.inputs[i].unconfirmedReports == t.inputs[i].unconfirmedReports + Once(!t.inputs[i].applied)
  {
  }
}
