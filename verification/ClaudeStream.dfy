/** The live input stream as an object: each method is one critical section under its lock, proved
  * to be the step of the same name. */
module ClaudeStream {
  import opened Options
  import L = LiveTurn

  class Stream {
    const steering: bool
    var ready: bool
    var closed: bool
    var background: int
    var lastResult: bool
    var queued: int
    var inputs: map<L.Id, L.Input>
    var questions: map<L.Id, L.Question>
    ghost var writer: L.Writer
    ghost var reader: L.Reader
    ghost var closedByResult: bool

    ghost function State(): L.Turn
      reads this
    {
      L.Turn(steering, ready, closed, background, lastResult, queued, inputs, questions, writer, reader, closedByResult)
    }

    constructor (steer: bool)
      ensures L.Initial(State()) && steering == steer
    {
      steering := steer;
      ready, closed, background, lastResult, queued := false, false, 0, false, 0;
      inputs, questions := map[], map[];
      writer, reader, closedByResult := L.Free, L.Reading, false;
    }

    /** Registers an instruction under both locks; the caller then writes it. */
    method AdmitSteer(id: L.Id, content: L.Content) returns (admitted: bool, refused: bool)
      requires writer == L.Free
      modifies this
      ensures State() == L.AdmitSteer(old(State()), id, content)
      ensures admitted <==> old(ready) && !old(closed) && id !in old(inputs) && |old(inputs)| < 32
      ensures refused <==> if id in old(inputs) then old(inputs)[id].content != content else !admitted
      ensures admitted ==> writer == L.Sending(id) && id in inputs && inputs[id].content == content
    {
      admitted, refused := false, false;
      if id in inputs {
        refused := inputs[id].content != content;
        return;
      }
      if !ready || closed { return false, true; }
      if |inputs| >= L.MAX_INPUTS { return false, true; }
      inputs := inputs[id := L.Input(content, false, false, false, 0, 0, 0, 0)];
      writer := L.Sending(id);
      admitted := true;
    }

    /** A write that failed, or was never made, fails the instruction unless the CLI echoed it. */
    method SettleSteer(id: L.Id, ok: bool)
      requires writer == L.Sent(id, ok) && id in inputs
      modifies this
      ensures State() == L.SettleSteer(old(State()))
    {
      if !ok && !inputs[id].received {
        inputs := inputs[id := inputs[id].(received := true, failed := true, wakes := inputs[id].wakes + 1)];
      }
      writer := L.Free;
      if !ok && old(inputs)[id].received { assert inputs == inputs[id := inputs[id]]; }
    }

    /** `failed` is the error that ends the reader's loop. */
    method Acknowledge(id: L.Id, applied: bool, acceptedOK: bool, appliedOK: bool) returns (failed: bool)
      modifies this
      ensures State() == L.Acknowledge(old(State()), id, applied, acceptedOK, appliedOK)
      ensures failed ==> reader == L.Stopped
    {
      if id !in inputs { return false; }
      var input := inputs[id];
      if !input.received {
        input := input.(received := true, wakes := input.wakes + 1);
        inputs := inputs[id := input];
        if !acceptedOK {
          reader := L.Stopped;
          return true;
        }
      }
      if applied && !input.applied {
        input := input.(applied := true, appliedReports := input.appliedReports + 1);
        inputs := inputs[id := input];
        if !appliedOK {
          reader := L.Stopped;
          return true;
        }
      }
      assert inputs == old(inputs)[id := input];
      return false;
    }

    method Progress()
      modifies this
      ensures State() == L.Progress(old(State()))
    {
      lastResult := false;
    }

    method AnyOpenQuestion() returns (open: bool)
      ensures open == L.OpenQuestion(State())
    {
      var left := questions.Keys;
      while left != {}
        invariant left <= questions.Keys
        invariant forall q | q in questions && q !in left :: questions[q].answers.Some? || questions[q].cancelled
        decreases left
      {
        var q :| q in left;
        if questions[q].answers.None? && !questions[q].cancelled { return true; }
        left := left - {q};
      }
      return false;
    }

    method AnyUnapplied() returns (pending: bool)
      ensures pending == L.Unapplied(State())
    {
      pending := false;
      var left := inputs.Keys;
      while left != {}
        invariant left <= inputs.Keys && !pending
        invariant forall id | id in inputs && id !in left :: inputs[id].applied
        decreases left
      {
        var id :| id in left;
        if !inputs[id].applied {
          pending := true;
          break;
        }
        left := left - {id};
      }
    }

    predicate AllApplied()
      reads this
    {
      forall id | id in inputs :: inputs[id].applied
    }

    predicate NoneOpen()
      reads this
    {
      forall q | q in questions :: questions[q].answers.Some? || questions[q].cancelled
    }

    /** Closes the stream exactly when no background task, queued turn, unapplied instruction or open
      * question can still use it. */
    method Result(count: int, ok: bool) returns (failed: bool)
      modifies this
      ensures State() == L.Result(old(State()), count, ok)
      ensures !old(closed) ==> (closed <==> background <= 0 && count == 0 && AllApplied() && NoneOpen())
      ensures failed <==> !old(closed) && closed && !ok
    {
      failed := false;
      if closed { return; }
      lastResult, queued := true, count;
      if background > 0 { return; }
      var open := AnyOpenQuestion();
      if open { return; }
      var pending := AnyUnapplied();
      if !pending && count == 0 {
        ready, closed, closedByResult := false, true, true;
        if !ok {
          reader := L.Stopped;
          failed := true;
        }
      }
    }

    /** When the last background task ends, the result that it held back is settled. */
    method BackgroundTasks(count: int, ok: bool) returns (failed: bool)
      requires reader == L.Reading
      modifies this
      ensures var counted := L.BackgroundTasks(old(State()), count);
        State() == if counted.reader.Settling? then L.ReaderStep(counted, L.DoResult(0, ok)) else counted
    {
      background := count;
      failed := false;
      if count == 0 && lastResult {
        failed := Result(queued, ok);
      }
    }

    static method FinishInput(before: L.Input) returns (input: L.Input)
      ensures input == L.MarkFinished(before)
    {
      input := before;
      if !input.received {
        input := input.(received := true, failed := true, wakes := input.wakes + 1);
      }
      if !input.applied {
        input := input.(unconfirmedReports := input.unconfirmedReports + 1);
      }
    }

    /** Wakes every waiting caller and reports each instruction that was never applied. */
    method Finish()
      modifies this
      ensures State() == L.Finish(old(State()))
    {
      hide L.MarkFinished;
      ready, closed, reader := false, true, L.Done;
      var left := inputs.Keys;
      while left != {}
        invariant left <= inputs.Keys && inputs.Keys == old(inputs).Keys
        invariant State() == old(State()).(ready := false, closed := true, reader := L.Done, inputs := inputs)
        invariant forall id | id in inputs ::
          inputs[id] == if id in left then old(inputs)[id] else L.MarkFinished(old(inputs)[id])
        decreases left
      {
        var id :| id in left;
        var input := FinishInput(inputs[id]);
        inputs := inputs[id := input];
        left := left - {id};
      }
    }

    /** Records an answer under both locks; the caller then reports and writes it. */
    method AdmitAnswer(id: L.Id, answers: L.Content, live: bool, valid: bool) returns (recorded: bool, refused: bool)
      requires writer == L.Free
      modifies this
      ensures State() == L.AdmitAnswer(old(State()), id, answers, live, valid)
      ensures recorded <==> writer == L.Answering(id, answers)
      ensures !refused <==> (id in questions && live && !closed && !old(questions)[id].cancelled
                             && questions[id].answers == Some(answers))
    {
      recorded, refused := false, false;
      if !live || closed || id !in questions || questions[id].cancelled { return false, true; }
      if questions[id].answers.Some? { return false, questions[id].answers.value != answers; }
      if !valid { return false, true; }
      questions := questions[id := questions[id].(answers := Some(answers))];
      writer := L.Answering(id, answers);
      recorded := true;
    }

    method AskQuestion(id: L.Id, ok: bool) returns (failed: bool)
      modifies this
      ensures State() == L.AskQuestion(old(State()), id, ok)
    {
      if id in questions { return false; }
      questions := questions[id := L.Question(None, false, [])];
      lastResult := false;
      if !ok { reader := L.Stopped; }
      return !ok;
    }

    method CancelQuestion(id: L.Id)
      modifies this
      ensures State() == L.CancelQuestion(old(State()), id)
    {
      if id in questions { questions := questions[id := questions[id].(cancelled := true)]; }
    }
  }
}
