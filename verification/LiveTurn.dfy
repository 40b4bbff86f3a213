/** The live input stream of a Claude turn: instructions and answers written to a running CLI,
  * its acknowledgements, and the decision to close the stream.
  *
  * A step is one critical section, or one write or report between two of them. Steering and
  * answering callers share the write lock (`writer`); one reader handles the CLI's output. */
module LiveTurn {
  import opened Options

  type Id = string
  type Content = string

  /** The last four fields are history: lines written to the CLI, wake-ups of the waiting callers,
    * and reports of either outcome. */
  datatype Input = Input(content: Content, received: bool, applied: bool, failed: bool,
    writes: nat, wakes: nat, appliedReports: nat, unconfirmedReports: nat)

  /** `sent` is history: every answer that was written to the CLI for this question. */
  datatype Question = Question(answers: Option<Content>, cancelled: bool, sent: seq<Content>)

  datatype Writer = Free | Sending(id: Id) | Sent(id: Id, ok: bool)
    | Answering(id: Id, answers: Content) | Releasing(id: Id, answers: Content) | Failing(id: Id)
  datatype Reader = Reading | Settling(queued: int) | Stopped | Done

  const MAX_INPUTS := 32

  datatype Turn = Turn(
    steering: bool, ready: bool, closed: bool, background: int, lastResult: bool, queued: int,
    inputs: map<Id, Input>, questions: map<Id, Question>, writer: Writer, reader: Reader, closedByResult: bool)

  predicate Initial(t: Turn) {
    && !t.ready && !t.closed && !t.closedByResult && t.inputs == map[] && t.questions == map[]
    && t.writer == Free && t.reader == Reading
  }

  // A failed report ends the reader's loop.
  function Continue(t: Turn, ok: bool): Turn { if ok then t else t.(reader := Stopped) }

  /** Nothing that belongs to questions, callers or the closing decision has changed. */
  predicate OnlyInputs(t: Turn, u: Turn) {
    && u.inputs.Keys == t.inputs.Keys && u.questions == t.questions && u.writer == t.writer
    && u.closed == t.closed && u.closedByResult == t.closedByResult && (u.reader == t.reader || u.reader == Stopped)
  }

  function SetInput(t: Turn, id: Id, input: Input): Turn { t.(inputs := t.inputs[id := input]) }

  // Steering

  function AdmitSteer(t: Turn, id: Id, content: Content): Turn {
    if t.writer != Free || id in t.inputs || !t.ready || t.closed || |t.inputs| >= MAX_INPUTS then t
    else SetInput(t, id, Input(content, false, false, false, 0, 0, 0, 0)).(writer := Sending(id))
  }

  function MarkWritten(input: Input): Input { input.(writes := input.writes + 1) }

  function SendSteer(t: Turn, encoded: bool, ok: bool): Turn {
    match t.writer
    case Sending(id) =>
      var u := t.(writer := Sent(id, encoded && ok));
      if encoded && id in t.inputs then SetInput(u, id, MarkWritten(t.inputs[id])) else u
    case _ => t
  }

  function MarkFailed(input: Input): Input {
    if input.received then input else input.(received := true, failed := true, wakes := input.wakes + 1)
  }

  function SettleSteer(t: Turn): Turn {
    match t.writer
    case Sent(id, ok) =>
      var u := t.(writer := Free);
      if !ok && id in t.inputs then SetInput(u, id, MarkFailed(t.inputs[id])) else u
    case _ => t
  }

  // The reader

  function Initialized(t: Turn, ok: bool): (u: Turn)
    ensures OnlyInputs(t, u) && u.inputs == t.inputs
  {
    Continue(t.(ready := true), !t.steering || ok)
  }

  function MarkReceived(input: Input): Input {
    if input.received then input else input.(received := true, wakes := input.wakes + 1)
  }

  function MarkApplied(input: Input): Input {
    if input.applied then input else input.(applied := true, appliedReports := input.appliedReports + 1)
  }

  function Acknowledge(t: Turn, id: Id, applied: bool, acceptedOK: bool, appliedOK: bool): (u: Turn)
    ensures OnlyInputs(t, u)
  {
    if id !in t.inputs then t
    else
      var input := t.inputs[id];
      if !input.received && !acceptedOK then Continue(SetInput(t, id, MarkReceived(input)), false)
      else if applied then
        Continue(SetInput(t, id, MarkApplied(MarkReceived(input))), input.applied || appliedOK)
      else SetInput(t, id, MarkReceived(input))
  }

  function Progress(t: Turn): Turn { t.(lastResult := false) }

  predicate OpenQuestion(t: Turn) {
    exists q | q in t.questions :: t.questions[q].answers.None? && !t.questions[q].cancelled
  }

  predicate Unapplied(t: Turn) {
    exists id | id in t.inputs :: !t.inputs[id].applied
  }

  function Result(t: Turn, queued: int, ok: bool): (u: Turn)
    ensures OnlyInputs(t.(closed := u.closed, closedByResult := u.closedByResult), u) && u.inputs == t.inputs
    ensures (u.closed == t.closed && u.closedByResult == t.closedByResult) || (u.closed && u.closedByResult)
  {
    var u := t.(lastResult := true, queued := queued);
    if t.closed then t
    else if t.background > 0 || OpenQuestion(t) then u
    else if !Unapplied(t) && queued == 0 then
      Continue(u.(ready := false, closed := true, closedByResult := true), ok)
    else u
  }

  /** Recording the count and settling the last result are separate critical sections. */
  function BackgroundTasks(t: Turn, count: int): Turn {
    t.(background := count, reader := if count == 0 && t.lastResult then Settling(t.queued) else t.reader)
  }

  function AskQuestion(t: Turn, id: Id, ok: bool): Turn {
    if id in t.questions then t
    else Continue(t.(questions := t.questions[id := Question(None, false, [])], lastResult := false), ok)
  }

  function CancelQuestion(t: Turn, id: Id): Turn {
    if id !in t.questions then t
    else t.(questions := t.questions[id := t.questions[id].(cancelled := true)])
  }

  function MarkFinished(input: Input): Input {
    var woken := MarkFailed(input);
    if input.applied then woken else woken.(unconfirmedReports := input.unconfirmedReports + 1)
  }

  function Finish(t: Turn): Turn {
    t.(ready := false, closed := true, reader := Done, inputs := map id | id in t.inputs :: MarkFinished(t.inputs[id]))
  }

  // Answering

  function AdmitAnswer(t: Turn, id: Id, answers: Content, live: bool, valid: bool): Turn {
    if t.writer != Free || !live || t.closed || id !in t.questions || t.questions[id].cancelled
       || t.questions[id].answers.Some? || !valid then t
    else t.(questions := t.questions[id := t.questions[id].(answers := Some(answers))], writer := Answering(id, answers))
  }

  function ReportAnswer(t: Turn, ok: bool): Turn {
    match t.writer
    case Answering(id, answers) => t.(writer := if ok then Releasing(id, answers) else Free)
    case _ => t
  }

  function WriteAnswer(t: Turn, ok: bool): Turn {
    match t.writer
    case Releasing(id, answers) =>
      var u := t.(writer := if ok then Free else Failing(id));
      if id in t.questions
      then u.(questions := t.questions[id := t.questions[id].(sent := t.questions[id].sent + [answers])]) else u
    case _ => t
  }

  function WithdrawAnswer(t: Turn): Turn {
    match t.writer
    case Failing(id) => CancelQuestion(t, id).(writer := Free)
    case _ => t
  }

  datatype Step =
    | DoAdmitSteer(id: Id, content: Content)
    | DoSendSteer(encoded: bool, ok: bool)
    | DoSettleSteer
    | DoInitialized(ok: bool)
    | DoAcknowledge(id: Id, applied: bool, acceptedOK: bool, appliedOK: bool)
    | DoProgress
    | DoResult(queued: int, ok: bool)
    | DoBackgroundTasks(count: int)
    | DoAskQuestion(id: Id, ok: bool)
    | DoCancelQuestion(id: Id, ok: bool)
    | DoStop
    | DoFinish
    | DoAdmitAnswer(id: Id, content: Content, live: bool, valid: bool)
    | DoReportAnswer(ok: bool)
    | DoWriteAnswer(ok: bool)
    | DoWithdrawAnswer

  function ReaderStep(t: Turn, step: Step): Turn {
    match (t.reader, step)
    case (Reading, DoInitialized(ok)) => Initialized(t, ok)
    case (Reading, DoAcknowledge(id, applied, acceptedOK, appliedOK)) => Acknowledge(t, id, applied, acceptedOK, appliedOK)
    case (Reading, DoProgress) => Progress(t)
    case (Reading, DoResult(queued, ok)) => Result(t, queued, ok)
    case (Reading, DoBackgroundTasks(count)) => BackgroundTasks(t, count)
    case (Reading, DoAskQuestion(id, ok)) => AskQuestion(t, id, ok)
    case (Reading, DoCancelQuestion(id, ok)) => Continue(CancelQuestion(t, id), id !in t.questions || ok)
    case (Reading, DoStop) => t.(reader := Stopped)
    case (Settling(queued), DoResult(_, ok)) => Result(t.(reader := Reading), queued, ok)
    case (Stopped, DoFinish) => Finish(t)
    case _ => t
  }

  function Apply(t: Turn, step: Step): Turn {
    match step
    case DoAdmitSteer(id, content) => AdmitSteer(t, id, content)
    case DoSendSteer(encoded, ok) => SendSteer(t, encoded, ok)
    case DoSettleSteer => SettleSteer(t)
    case DoAdmitAnswer(id, content, live, valid) => AdmitAnswer(t, id, content, live, valid)
    case DoReportAnswer(ok) => ReportAnswer(t, ok)
    case DoWriteAnswer(ok) => WriteAnswer(t, ok)
    case DoWithdrawAnswer => WithdrawAnswer(t)
    case _ => ReaderStep(t, step)
  }

  function Run(t: Turn, steps: seq<Step>): Turn
    decreases |steps|
  {
    if steps == [] then t else Run(Apply(t, steps[0]), steps[1..])
  }
}
