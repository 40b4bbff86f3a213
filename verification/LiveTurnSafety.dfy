/** What holds of a live Claude input stream in every interleaving of its callers and its reader. */
module LiveTurnSafety {
  import opened Options
  import opened LiveTurn

  function B(condition: bool): nat { if condition then 1 else 0 }

  /** One instruction: its line, the callers' signal and its outcome each happen at most once. */
  predicate InputSound(input: Input, sending: bool, done: bool, closedByResult: bool) {
    && input.writes <= B(!sending)
    && input.wakes == B(input.received)
    && input.appliedReports == B(input.applied)
    && input.unconfirmedReports == B(done && !input.applied)
    && (input.applied || done ==> input.received)
    && (closedByResult ==> input.applied)
  }

  /** What was sent for a question is the one answer recorded for it, at most once. */
  predicate QuestionSound(q: Question, writer: Writer, id: Id) {
    && (q.sent == [] || (q.answers.Some? && q.sent == [q.answers.value]))
    && ((writer.Answering? || writer.Releasing?) && writer.id == id
        ==> q.answers == Some(writer.answers) && q.sent == [])
  }

  predicate ClosedSound(t: Turn) { t.closed <==> t.closedByResult || t.reader == Done }

  predicate WriterSound(t: Turn) {
    && (t.writer.Sending? || t.writer.Sent? ==> t.writer.id in t.inputs)
    && (t.writer.Answering? || t.writer.Releasing? || t.writer.Failing? ==> t.writer.id in t.questions)
  }

  predicate TurnSound(t: Turn) { ClosedSound(t) && WriterSound(t) }

  ghost predicate InputsSound(t: Turn) {
    forall id | id in t.inputs ::
      InputSound(t.inputs[id], t.writer == Sending(id), t.reader == Done, t.closedByResult)
  }

  ghost predicate QuestionsSound(t: Turn) {
    forall id | id in t.questions :: QuestionSound(t.questions[id], t.writer, id)
  }

  ghost predicate Inv(t: Turn) { TurnSound(t) && InputsSound(t) && QuestionsSound(t) }

  lemma HandlingKeepsSound(input: Input, sending: bool, closedByResult: bool)
    requires InputSound(input, sending, false, closedByResult)
    ensures InputSound(MarkReceived(input), sending, false, closedByResult)
    ensures InputSound(MarkApplied(MarkReceived(input)), sending, false, closedByResult)
    ensures InputSound(MarkFinished(input), sending, true, closedByResult)
  {
  }

  lemma SendingKeepsSound(input: Input, done: bool, closedByResult: bool)
    requires InputSound(input, true, done, closedByResult)
    ensures InputSound(input, false, done, closedByResult)
    ensures InputSound(MarkWritten(input), false, done, closedByResult)
  {
  }

  lemma FailingKeepsSound(input: Input, done: bool, closedByResult: bool)
    requires InputSound(input, false, done, closedByResult)
    ensures InputSound(MarkFailed(input), false, done, closedByResult)
  {
  }

  lemma AdmitKeepsInputs(t: Turn, id: Id, content: Content)
    requires ClosedSound(t) && InputsSound(t)
    ensures InputsSound(AdmitSteer(t, id, content))
  {
    assert !t.closed ==>
      InputSound(Input(content, false, false, false, 0, 0, 0, 0), true, t.reader == Done, t.closedByResult);
    hide InputSound;
  }

  lemma SendKeepsInputs(t: Turn, encoded: bool, ok: bool)
    requires WriterSound(t) && InputsSound(t)
    ensures InputsSound(SendSteer(t, encoded, ok))
  {
    hide InputSound, MarkWritten;
    if t.writer.Sending? {
      SendingKeepsSound(t.inputs[t.writer.id], t.reader == Done, t.closedByResult);
    }
  }

  lemma SettleKeepsInputs(t: Turn)
    requires WriterSound(t) && InputsSound(t)
    ensures InputsSound(SettleSteer(t))
  {
    hide InputSound, MarkFailed;
    if t.writer.Sent? {
      FailingKeepsSound(t.inputs[t.writer.id], t.reader == Done, t.closedByResult);
    }
  }

  lemma ReaderKeepsInputs(t: Turn, step: Step)
    requires InputsSound(t) && !step.DoAcknowledge? && !step.DoResult? && !step.DoFinish?
    ensures InputsSound(ReaderStep(t, step))
  {
    hide InputSound;
  }

  lemma ResultKeepsInputs(t: Turn, queued: int, ok: bool)
    requires InputsSound(t) && t.reader != Done
    ensures InputsSound(Result(t, queued, ok))
  {
    hide OpenQuestion;
    var u := Result(t, queued, ok);
    if u.closedByResult && !t.closedByResult {
      forall id | id in t.inputs
        ensures InputSound(t.inputs[id], t.writer == Sending(id), false, true)
      {
        assert t.inputs[id].applied;
      }
    }
  }

  lemma AcknowledgeKeepsInputs(t: Turn, id: Id, applied: bool, acceptedOK: bool, appliedOK: bool)
    requires InputsSound(t) && t.reader == Reading
    ensures InputsSound(Acknowledge(t, id, applied, acceptedOK, appliedOK))
  {
    hide InputSound, MarkReceived, MarkApplied;
    if id in t.inputs {
      HandlingKeepsSound(t.inputs[id], t.writer == Sending(id), t.closedByResult);
    }
  }

  lemma FinishKeepsInputs(t: Turn)
    requires InputsSound(t) && t.reader == Stopped
    ensures InputsSound(Finish(t))
  {
    hide InputSound, MarkFinished;
    forall id | id in t.inputs
      ensures InputSound(MarkFinished(t.inputs[id]), t.writer == Sending(id), true, t.closedByResult)
    {
      HandlingKeepsSound(t.inputs[id], t.writer == Sending(id), t.closedByResult);
    }
  }

  lemma StepKeepsInputs(t: Turn, step: Step)
    requires TurnSound(t) && InputsSound(t)
    ensures InputsSound(Apply(t, step))
  {
    hide InputSound, Result, Finish, Acknowledge, AdmitSteer, SendSteer, SettleSteer;
    match step
    case DoAdmitSteer(id, content) => AdmitKeepsInputs(t, id, content);
    case DoSendSteer(encoded, ok) => SendKeepsInputs(t, encoded, ok);
    case DoSettleSteer => SettleKeepsInputs(t);
    case DoAcknowledge(id, applied, acceptedOK, appliedOK) =>
      if t.reader == Reading { AcknowledgeKeepsInputs(t, id, applied, acceptedOK, appliedOK); }
    case DoResult(queued, ok) =>
      if t.reader == Reading { ResultKeepsInputs(t, queued, ok); }
      if t.reader.Settling? { ResultKeepsInputs(t.(reader := Reading), t.reader.queued, ok); }
    case DoFinish =>
      if t.reader == Stopped { FinishKeepsInputs(t); }
    case DoAdmitAnswer(_, _, _, _) =>
    case DoReportAnswer(_) =>
    case DoWriteAnswer(_) =>
    case DoWithdrawAnswer =>
    case _ => ReaderKeepsInputs(t, step);
  }

  predicate OfAnswer(step: Step) {
    step.DoAdmitAnswer? || step.DoReportAnswer? || step.DoWriteAnswer? || step.DoWithdrawAnswer?
  }

  predicate OfSteer(step: Step) { step.DoAdmitSteer? || step.DoSendSteer? || step.DoSettleSteer? }

  lemma AnswerKeepsQuestions(t: Turn, step: Step)
    requires WriterSound(t) && QuestionsSound(t) && OfAnswer(step)
    ensures QuestionsSound(Apply(t, step))
  {
  }

  /** Only asking and cancelling touch the questions outside an answer. */
  lemma ReaderLeavesQuestions(t: Turn, step: Step)
    requires !step.DoAskQuestion? && !step.DoCancelQuestion?
    ensures ReaderStep(t, step).questions == t.questions && ReaderStep(t, step).writer == t.writer
  {
    hide Acknowledge, Result, Initialized, MarkFinished;
  }

  lemma OthersKeepQuestions(t: Turn, step: Step)
    requires WriterSound(t) && QuestionsSound(t) && !OfAnswer(step)
    ensures QuestionsSound(Apply(t, step))
  {
    hide Acknowledge, Result, Initialized, Finish, SendSteer, AdmitSteer, SettleSteer;
    if OfSteer(step) {
      SteerNeverAnswers(t, step);
    } else if !step.DoAskQuestion? && !step.DoCancelQuestion? {
      ReaderLeavesQuestions(t, step);
      hide ReaderStep;
    }
  }

  lemma SteerNeverAnswers(t: Turn, step: Step)
    requires OfSteer(step)
    ensures Apply(t, step).questions == t.questions
    ensures var w := Apply(t, step).writer; w == t.writer || w == Free || w.Sending? || w.Sent?
  {
    hide MarkFailed, MarkWritten;
    match step
    case DoAdmitSteer(_, _) => hide SendSteer, SettleSteer;
    case DoSendSteer(_, _) => hide AdmitSteer, SettleSteer;
    case DoSettleSteer => hide AdmitSteer, SendSteer;
  }

  lemma CallersKeepTurn(t: Turn, step: Step)
    requires TurnSound(t) && (OfSteer(step) || OfAnswer(step))
    ensures TurnSound(Apply(t, step))
  {
    hide MarkFailed;
  }

  lemma ReaderKeepsTurn(t: Turn, step: Step)
    requires TurnSound(t)
    ensures TurnSound(ReaderStep(t, step))
  {
    hide Acknowledge, Result, Initialized, MarkFinished;
  }

  lemma StepKeepsInv(t: Turn, step: Step)
    requires Inv(t)
    ensures Inv(Apply(t, step))
  {
    StepKeepsInputs(t, step);
    if OfAnswer(step) {
      AnswerKeepsQuestions(t, step);
    } else {
      OthersKeepQuestions(t, step);
    }
    if OfSteer(step) || OfAnswer(step) {
      CallersKeepTurn(t, step);
    } else {
      ReaderKeepsTurn(t, step);
    }
  }

  lemma InitialIsSound(t: Turn)
    requires Initial(t)
    ensures Inv(t)
  {
  }

  lemma {:induction false} RunKeepsInv(t: Turn, steps: seq<Step>)
    requires Inv(t)
    ensures Inv(Run(t, steps))
    decreases |steps|
  {
    hide Inv, Apply;
    if steps != [] {
      StepKeepsInv(t, steps[0]);
      RunKeepsInv(Apply(t, steps[0]), steps[1..]);
    }
  }

  /** Whatever interleaving led here: every instruction was written at most once and its callers were
    * woken at most once, and when the turn is done each has been woken and reported exactly one way. */
  lemma EveryInstructionIsSettledOnce(t: Turn, steps: seq<Step>, id: Id)
    requires Initial(t) && id in Run(t, steps).inputs
    ensures var u := Run(t, steps);
      var input := u.inputs[id];
      && input.writes <= 1 && input.wakes <= 1 && input.appliedReports + input.unconfirmedReports <= 1
      && (u.reader == Done ==> input.wakes == 1 && input.appliedReports + input.unconfirmedReports == 1)
      && (u.reader == Done ==> (input.appliedReports == 1 <==> input.applied))
  {
    InitialIsSound(t);
    RunKeepsInv(t, steps);
  }

  /** A stream that a result closed has no instruction left that was not applied, then or at the end. */
  lemma ClosedStreamLosesNothing(t: Turn, steps: seq<Step>, id: Id)
    requires Initial(t) && Run(t, steps).closedByResult && id in Run(t, steps).inputs
    ensures Run(t, steps).inputs[id].applied && Run(t, steps).inputs[id].unconfirmedReports == 0
  {
    InitialIsSound(t);
    RunKeepsInv(t, steps);
  }

  /** A question receives at most one answer, the recorded one. */
  lemma AnswersAreSentOnce(t: Turn, steps: seq<Step>, id: Id)
    requires Initial(t) && id in Run(t, steps).questions
    ensures var q := Run(t, steps).questions[id];
      q.sent == [] || (q.answers.Some? && q.sent == [q.answers.value])
  {
    InitialIsSound(t);
    RunKeepsInv(t, steps);
  }

  /** Content, signals and outcomes of an instruction are never taken back. */
  predicate InputExtends(a: Input, b: Input) {
    && b.content == a.content
    && (a.received ==> b.received && b.failed == a.failed)
    && (a.applied ==> b.applied)
  }

  predicate AnswerExtends(a: Question, b: Question) {
    && (a.answers.Some? ==> b.answers == a.answers)
    && (a.cancelled ==> b.cancelled && b.answers == a.answers)
  }

  ghost predicate InputsExtend(a: map<Id, Input>, b: map<Id, Input>) {
    forall id | id in a :: id in b && InputExtends(a[id], b[id])
  }

  ghost predicate AnswersExtend(a: map<Id, Question>, b: map<Id, Question>) {
    forall id | id in a :: id in b && AnswerExtends(a[id], b[id])
  }

  ghost predicate Extends(t: Turn, u: Turn) {
    && (t.closed ==> u.closed && u.inputs.Keys == t.inputs.Keys)
    && InputsExtend(t.inputs, u.inputs)
    && AnswersExtend(t.questions, u.questions)
  }

  lemma MarksExtend(inputs: map<Id, Input>, id: Id)
    requires id in inputs
    ensures InputExtends(inputs[id], MarkFinished(inputs[id]))
    ensures var input := inputs[id];
      && InputsExtend(inputs, inputs[id := MarkFailed(input)])
      && InputsExtend(inputs, inputs[id := MarkReceived(input)])
      && InputsExtend(inputs, inputs[id := MarkApplied(MarkReceived(input))])
      && InputsExtend(inputs, inputs[id := MarkWritten(input)])
  {
  }

  lemma NothingExtends(t: Turn)
    ensures InputsExtend(t.inputs, t.inputs) && AnswersExtend(t.questions, t.questions)
  {
  }

  lemma AdmitExtends(t: Turn, id: Id, content: Content)
    ensures Extends(t, AdmitSteer(t, id, content))
  {
    NothingExtends(t);
    assert id !in t.inputs ==> InputsExtend(t.inputs, t.inputs[id := Input(content, false, false, false, 0, 0, 0, 0)]);
    hide InputsExtend, AnswersExtend;
  }

  lemma SendExtends(t: Turn, encoded: bool, ok: bool)
    ensures Extends(t, SendSteer(t, encoded, ok))
  {
    NothingExtends(t);
    if t.writer.Sending? && t.writer.id in t.inputs { MarksExtend(t.inputs, t.writer.id); }
    hide InputsExtend, AnswersExtend, MarkWritten;
  }

  lemma SettleExtends(t: Turn)
    ensures Extends(t, SettleSteer(t))
  {
    NothingExtends(t);
    if t.writer.Sent? && t.writer.id in t.inputs { MarksExtend(t.inputs, t.writer.id); }
    hide InputsExtend, AnswersExtend, MarkFailed;
  }

  lemma RecordingExtends(t: Turn, step: Step)
    requires step.DoAdmitAnswer? || step.DoReportAnswer?
    ensures Extends(t, Apply(t, step))
  {
    NothingExtends(t);
    hide InputsExtend, WriteAnswer, WithdrawAnswer;
  }

  lemma AnswerExtendsTurn(t: Turn, step: Step)
    requires OfAnswer(step)
    ensures Extends(t, Apply(t, step))
  {
    NothingExtends(t);
    hide InputsExtend;
    if step.DoWriteAnswer? {
      hide AdmitAnswer, WithdrawAnswer, ReportAnswer;
    } else if step.DoWithdrawAnswer? {
      hide AdmitAnswer, WriteAnswer, ReportAnswer;
    } else {
      RecordingExtends(t, step);
      hide Apply;
    }
  }

  lemma AcknowledgeExtends(t: Turn, id: Id, applied: bool, acceptedOK: bool, appliedOK: bool)
    ensures Extends(t, Acknowledge(t, id, applied, acceptedOK, appliedOK))
  {
    NothingExtends(t);
    if id in t.inputs { MarksExtend(t.inputs, id); }
    hide InputsExtend, AnswersExtend, MarkReceived, MarkApplied;
  }

  lemma FinishExtends(t: Turn)
    ensures Extends(t, Finish(t))
  {
    forall id | id in t.inputs ensures InputExtends(t.inputs[id], MarkFinished(t.inputs[id])) {
      MarksExtend(t.inputs, id);
    }
    hide MarkFinished, MarkFailed;
  }

  lemma AskingExtends(t: Turn, step: Step)
    requires step.DoAskQuestion? || step.DoCancelQuestion?
    ensures Extends(t, ReaderStep(t, step))
  {
    NothingExtends(t);
    hide InputsExtend;
  }

  lemma ReaderExtends(t: Turn, step: Step)
    ensures Extends(t, ReaderStep(t, step))
  {
    NothingExtends(t);
    if step.DoAcknowledge? {
      AcknowledgeExtends(t, step.id, step.applied, step.acceptedOK, step.appliedOK);
    } else if step.DoFinish? {
      FinishExtends(t);
    } else if step.DoAskQuestion? || step.DoCancelQuestion? {
      AskingExtends(t, step);
    }
    hide Acknowledge, Result, Initialized, Finish, AskQuestion, CancelQuestion, InputsExtend, AnswersExtend;
  }

  lemma {:induction false} RunExtends(t: Turn, steps: seq<Step>)
    ensures Extends(t, Run(t, steps))
    decreases |steps|
  {
    hide Apply;
    if steps != [] {
      var u := Apply(t, steps[0]);
      StepExtends(t, steps[0]);
      RunExtends(u, steps[1..]);
      ExtendsTransitive(t, u, Run(u, steps[1..]));
    }
  }

  lemma StepExtends(t: Turn, step: Step)
    ensures Extends(t, Apply(t, step))
  {
    hide Extends, AdmitSteer, SendSteer, SettleSteer;
    match step
    case DoAdmitSteer(id, content) => AdmitExtends(t, id, content);
    case DoSendSteer(encoded, ok) => SendExtends(t, encoded, ok);
    case DoSettleSteer => SettleExtends(t);
    case _ =>
      if OfAnswer(step) {
        AnswerExtendsTurn(t, step);
      } else {
        ReaderExtends(t, step);
        hide ReaderStep;
      }
  }

  lemma ExtendsTransitive(t: Turn, u: Turn, v: Turn)
    requires Extends(t, u) && Extends(u, v)
    ensures Extends(t, v)
  {
  }

  /** Delivering an instruction ID again writes nothing, whatever happened in between. */
  lemma RepeatedInstructionIsNotWritten(t: Turn, steps: seq<Step>, id: Id, content: Content)
    requires id in t.inputs
    ensures var u := Run(t, steps);
      && AdmitSteer(u, id, content) == u && id in u.inputs && u.inputs[id].content == t.inputs[id].content
  {
    RunExtends(t, steps);
  }

  /** A question that was withdrawn unanswered is never answered, whoever tries later. */
  lemma CancelledQuestionStaysUnanswered(t: Turn, first: seq<Step>, later: seq<Step>, id: Id)
    requires Initial(t) && id in Run(t, first).questions
    requires var q := Run(t, first).questions[id]; q.cancelled && q.answers.None?
    ensures var u := Run(Run(t, first), later);
      id in u.questions && u.questions[id].cancelled && u.questions[id].answers.None? && u.questions[id].sent == []
  {
    InitialIsSound(t);
    RunKeepsInv(t, first);
    RunKeepsInv(Run(t, first), later);
    RunExtends(Run(t, first), later);
  }

  /** The caller that holds the write lock is about to write this instruction. */
  predicate Writing(t: Turn, id: Id) { t.writer == Sending(id) }

  /** The caller that holds the write lock is about to write the answer to this question. */
  predicate Replying(t: Turn, id: Id) { (t.writer.Answering? || t.writer.Releasing?) && t.writer.id == id }

  ghost predicate InputsInFlight(t: Turn, u: Turn) {
    && u.closed && u.inputs.Keys == t.inputs.Keys
    && (forall id | id in t.inputs && u.inputs[id].writes != t.inputs[id].writes :: Writing(t, id))
    && (forall id | Writing(u, id) :: Writing(t, id))
  }

  ghost predicate RepliesInFlight(t: Turn, u: Turn) {
    && (forall q | q in t.questions :: q in u.questions)
    && (forall q | q in t.questions && u.questions[q].sent != t.questions[q].sent :: Replying(t, q))
    && (forall q | Replying(u, q) :: Replying(t, q))
  }

  /** Nothing was admitted, and nothing written but what was already under way. */
  ghost predicate OnlyInFlight(t: Turn, u: Turn) { InputsInFlight(t, u) && RepliesInFlight(t, u) }

  lemma MarksWriteNothing(input: Input)
    ensures MarkFailed(input).writes == input.writes && MarkFinished(input).writes == input.writes
    ensures MarkReceived(input).writes == input.writes && MarkApplied(MarkReceived(input)).writes == input.writes
  {
  }

  lemma NothingIsInFlight(t: Turn)
    requires t.closed
    ensures InputsInFlight(t, t)
  {
  }

  lemma ClosedSendWritesInFlight(t: Turn, encoded: bool, ok: bool)
    requires t.closed
    ensures InputsInFlight(t, SendSteer(t, encoded, ok))
  {
    hide MarkWritten;
  }

  lemma ClosedSettleWritesNothing(t: Turn)
    requires t.closed
    ensures InputsInFlight(t, SettleSteer(t))
  {
    if t.writer.Sent? && t.writer.id in t.inputs { MarksWriteNothing(t.inputs[t.writer.id]); }
    hide MarkFailed;
  }

  lemma ClosedAcknowledgeWritesNothing(t: Turn, id: Id, applied: bool, acceptedOK: bool, appliedOK: bool)
    requires t.closed
    ensures InputsInFlight(t, Acknowledge(t, id, applied, acceptedOK, appliedOK))
  {
    if id in t.inputs {
      MarksWriteNothing(t.inputs[id]);
      var u := Acknowledge(t, id, applied, acceptedOK, appliedOK);
      assert u.inputs[id].writes == t.inputs[id].writes;
      assert forall other | other in t.inputs && other != id :: u.inputs[other] == t.inputs[other];
      hide Acknowledge;
    }
  }

  lemma ClosedFinishWritesNothing(t: Turn)
    requires t.closed
    ensures InputsInFlight(t, Finish(t))
  {
    forall id | id in t.inputs ensures MarkFinished(t.inputs[id]).writes == t.inputs[id].writes {
      MarksWriteNothing(t.inputs[id]);
    }
    hide MarkFinished;
  }

  lemma ClosedReaderKeepsInputs(t: Turn, step: Step)
    requires t.closed
    ensures InputsInFlight(t, ReaderStep(t, step))
  {
    if step.DoAcknowledge? {
      ClosedAcknowledgeWritesNothing(t, step.id, step.applied, step.acceptedOK, step.appliedOK);
    } else if step.DoFinish? {
      ClosedFinishWritesNothing(t);
    }
    hide Acknowledge, Finish, Initialized;
  }

  lemma ClosedAnswerKeepsInputs(t: Turn, step: Step)
    requires t.closed && OfAnswer(step)
    ensures InputsInFlight(t, Apply(t, step))
  {
  }

  lemma ClosedStepKeepsInputs(t: Turn, step: Step)
    requires t.closed
    ensures InputsInFlight(t, Apply(t, step))
  {
    hide InputsInFlight, SendSteer, SettleSteer;
    match step
    case DoAdmitSteer(_, _) => NothingIsInFlight(t);
    case DoSendSteer(encoded, ok) => ClosedSendWritesInFlight(t, encoded, ok);
    case DoSettleSteer => ClosedSettleWritesNothing(t);
    case _ =>
      if OfAnswer(step) {
        ClosedAnswerKeepsInputs(t, step);
      } else {
        ClosedReaderKeepsInputs(t, step);
        hide ReaderStep;
      }
  }

  lemma ClosedAnswerReplies(t: Turn, step: Step)
    requires t.closed && OfAnswer(step)
    ensures RepliesInFlight(t, Apply(t, step))
  {
  }

  lemma AskReplies(t: Turn, id: Id, ok: bool)
    ensures RepliesInFlight(t, AskQuestion(t, id, ok))
  {
  }

  lemma CancelReplies(t: Turn, id: Id, ok: bool)
    ensures RepliesInFlight(t, Continue(CancelQuestion(t, id), ok))
  {
  }

  lemma AskingReplies(t: Turn, step: Step)
    requires step.DoAskQuestion? || step.DoCancelQuestion?
    ensures RepliesInFlight(t, ReaderStep(t, step))
  {
    assert RepliesInFlight(t, t);
    hide Acknowledge, Finish, Result, Initialized, AskQuestion, CancelQuestion, RepliesInFlight, Continue;
    if step.DoAskQuestion? {
      AskReplies(t, step.id, step.ok);
    } else {
      CancelReplies(t, step.id, step.id !in t.questions || step.ok);
    }
  }

  lemma ClosedStepReplies(t: Turn, step: Step)
    requires t.closed
    ensures RepliesInFlight(t, Apply(t, step))
  {
    hide SendSteer, SettleSteer, AdmitSteer;
    if OfSteer(step) {
      SteerNeverAnswers(t, step);
      hide Apply;
    } else if OfAnswer(step) {
      ClosedAnswerReplies(t, step);
      hide Apply;
    } else if step.DoAskQuestion? || step.DoCancelQuestion? {
      AskingReplies(t, step);
      hide ReaderStep;
    } else {
      ReaderLeavesQuestions(t, step);
      hide ReaderStep;
    }
  }

  lemma ClosedStepWritesInFlight(t: Turn, step: Step)
    requires t.closed
    ensures OnlyInFlight(t, Apply(t, step))
  {
    hide Apply, InputsInFlight, RepliesInFlight;
    ClosedStepKeepsInputs(t, step);
    ClosedStepReplies(t, step);
  }

  /** A closed stream is closed for good: whatever happens next, no instruction and no answer is written
    * to it except the one line, if any, that the holder of the write lock had under way. */
  lemma {:induction false} ClosedStreamTakesNothing(t: Turn, steps: seq<Step>)
    requires t.closed
    ensures OnlyInFlight(t, Run(t, steps))
    decreases |steps|
  {
    if steps == [] {
    } else {
      hide Apply;
      var u := Apply(t, steps[0]);
      ClosedStepWritesInFlight(t, steps[0]);
      ClosedStreamTakesNothing(u, steps[1..]);
      InFlightTransitive(t, u, Run(u, steps[1..]));
    }
  }

  lemma InFlightTransitive(t: Turn, u: Turn, v: Turn)
    requires OnlyInFlight(t, u) && OnlyInFlight(u, v)
    ensures OnlyInFlight(t, v)
  {
  }
}
