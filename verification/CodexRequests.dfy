/** Requests to a Codex app-server: the table of pending requests, and the three ways out of it.
  * Callers, the reader of each process, cancellation and resets interleave freely. */
module CodexRequests {
  import opened Options

  type Id = nat

  datatype Message = Message(id: Id, body: string)
  datatype Outcome = Result(message: Message) | Disconnected | Abandoned | Unwritten
  datatype Phase = Writing | Waiting | Returned(outcome: Outcome)

  /** A request's channel; `closes` counts how often it was closed. */
  datatype Channel = Channel(content: Option<Message>, closes: nat)

  datatype Remover = ByResponse(message: Message) | ByReset | ByCaller

  /** `held` are responses taken from the table and not yet passed on; `removers` is history. */
  datatype Adapter = Adapter(process: nat, next: Id, pending: set<Id>, held: map<Id, Message>,
    phases: map<Id, Phase>, channels: map<Id, Channel>, removers: map<Id, Remover>)

  predicate Initial(a: Adapter) {
    && a.next == 0 && a.pending == {} && a.held == map[] && a.phases == map[] && a.channels == map[]
    && a.removers == map[]
  }

  datatype Step =
    | Begin
    | Write(id: Id, ok: bool)
    | Respond(message: Message)
    | Deliver(id: Id)
    | Cancel(id: Id)
    | Return(id: Id)
    | Start(process: nat)
    | Reset(process: nat)

  function BeginStep(a: Adapter): Adapter {
    var id := a.next + 1;
    a.(next := id, pending := a.pending + {id}, phases := a.phases[id := Writing],
       channels := a.channels[id := Channel(None, 0)])
  }

  /** The caller gives up: its entry goes, unless someone else has already taken it. */
  function GiveUp(a: Adapter, id: Id, outcome: Outcome): Adapter {
    a.(phases := a.phases[id := Returned(outcome)], pending := a.pending - {id},
       removers := if id in a.pending then a.removers[id := ByCaller] else a.removers)
  }

  function RespondStep(a: Adapter, m: Message): Adapter {
    if m.id !in a.pending then a
    else a.(pending := a.pending - {m.id}, held := a.held[m.id := m], removers := a.removers[m.id := ByResponse(m)])
  }

  function DeliverStep(a: Adapter, id: Id): Adapter {
    if id !in a.held || id !in a.channels then a
    else a.(held := a.held - {id}, channels := a.channels[id := Channel(Some(a.held[id]), a.channels[id].closes + 1)])
  }

  function ReturnStep(a: Adapter, id: Id): Adapter {
    if id !in a.channels || id !in a.phases || a.phases[id] != Waiting || a.channels[id].closes == 0 then a
    else
      var content := a.channels[id].content;
      a.(phases := a.phases[id := Returned(if content.Some? then Result(content.value) else Disconnected)])
  }

  function Closed(channels: map<Id, Channel>, ids: set<Id>): map<Id, Channel> {
    map id | id in channels :: if id in ids then channels[id].(closes := channels[id].closes + 1) else channels[id]
  }

  function ResetBy(removers: map<Id, Remover>, ids: set<Id>): map<Id, Remover> {
    map id | id in removers.Keys + ids :: if id in ids then ByReset else removers[id]
  }

  /** Only the process that is still the current one is reset. */
  function ResetStep(a: Adapter, process: nat): Adapter {
    if a.process != process then a
    else a.(process := 0, pending := {}, channels := Closed(a.channels, a.pending),
            removers := ResetBy(a.removers, a.pending))
  }

  function Apply(a: Adapter, step: Step): Adapter {
    match step
    case Begin => BeginStep(a)
    case Write(id, ok) =>
      if id !in a.phases || a.phases[id] != Writing then a
      else if ok then a.(phases := a.phases[id := Waiting]) else GiveUp(a, id, Unwritten)
    case Respond(m) => RespondStep(a, m)
    case Deliver(id) => DeliverStep(a, id)
    case Cancel(id) => if id !in a.phases || a.phases[id] != Waiting then a else GiveUp(a, id, Abandoned)
    case Return(id) => ReturnStep(a, id)
    case Start(process) => a.(process := process)
    case Reset(process) => ResetStep(a, process)
  }

  function Run(a: Adapter, steps: seq<Step>): Adapter
    decreases |steps|
  {
    if steps == [] then a else Run(Apply(a, steps[0]), steps[1..])
  }

  /** Exactly one of these holds of a request: it is pending, its response is on the way, its channel
    * has been closed once, or its caller has given it up. */
  predicate RequestSound(a: Adapter, id: Id)
    requires id in a.phases
  {
    && id <= a.next && id in a.channels
    && (id in a.pending <==> id !in a.removers)
    && (id in a.held <==> id in a.removers && a.removers[id].ByResponse? && a.channels[id].closes == 0)
    && (id in a.held ==> a.held[id].id == id && a.removers[id] == ByResponse(a.held[id]))
    && (a.channels[id].closes == if id in a.removers && !a.removers[id].ByCaller? && id !in a.held then 1 else 0)
    && (a.channels[id].content ==
          if a.channels[id].closes == 1 && a.removers[id].ByResponse? then Some(a.removers[id].message) else None)
    && (id in a.removers && a.removers[id].ByResponse? ==> a.removers[id].message.id == id)
    && (a.phases[id].Returned? && a.phases[id].outcome.Result? ==>
          a.channels[id].content == Some(a.phases[id].outcome.message))
    && (a.phases[id] == Returned(Disconnected) ==> id in a.removers && a.removers[id] == ByReset)
    && (id in a.removers && a.removers[id].ByCaller? ==> a.phases[id].Returned?)
    && (id in a.pending ==> !a.phases[id].Returned?)
  }

  ghost predicate Inv(a: Adapter) {
    && (forall id | id in a.phases :: RequestSound(a, id))
    && (forall id | id in a.pending || id in a.held || id in a.removers || id in a.channels :: id in a.phases)
  }

  lemma BeginKeepsInv(a: Adapter)
    requires Inv(a)
    ensures Inv(BeginStep(a))
  {
    assert a.next + 1 !in a.phases;
  }

  lemma GiveUpKeepsInv(a: Adapter, id: Id, outcome: Outcome)
    requires Inv(a) && id in a.phases && !a.phases[id].Returned? && (outcome == Abandoned || outcome == Unwritten)
    ensures Inv(GiveUp(a, id, outcome))
  {
  }

  lemma RespondKeepsInv(a: Adapter, m: Message)
    requires Inv(a)
    ensures Inv(RespondStep(a, m))
  {
  }

  lemma DeliverKeepsInv(a: Adapter, id: Id)
    requires Inv(a)
    ensures Inv(DeliverStep(a, id))
  {
  }

  lemma ReturnKeepsInv(a: Adapter, id: Id)
    requires Inv(a)
    ensures Inv(ReturnStep(a, id))
  {
  }

  lemma ResetKeepsInv(a: Adapter, process: nat)
    requires Inv(a)
    ensures Inv(ResetStep(a, process))
  {
  }

  lemma StepKeepsInv(a: Adapter, step: Step)
    requires Inv(a)
    ensures Inv(Apply(a, step))
  {
    match step
    case Begin => BeginKeepsInv(a);
    case Write(id, ok) =>
      if id in a.phases && a.phases[id] == Writing && !ok { GiveUpKeepsInv(a, id, Unwritten); }
    case Respond(m) => RespondKeepsInv(a, m);
    case Deliver(id) => DeliverKeepsInv(a, id);
    case Cancel(id) =>
      if id in a.phases && a.phases[id] == Waiting { GiveUpKeepsInv(a, id, Abandoned); }
    case Return(id) => ReturnKeepsInv(a, id);
    case Start(_) =>
    case Reset(process) => ResetKeepsInv(a, process);
  }

  lemma {:induction false} RunKeepsInv(a: Adapter, steps: seq<Step>)
    requires Inv(a)
    ensures Inv(Run(a, steps))
    decreases |steps|
  {
    hide Inv, Apply;
    if steps != [] {
      StepKeepsInv(a, steps[0]);
      RunKeepsInv(Apply(a, steps[0]), steps[1..]);
    }
  }

  lemma {:induction false} RemoverIsFinal(a: Adapter, steps: seq<Step>, id: Id)
    requires Inv(a) && id in a.removers
    ensures id in Run(a, steps).removers && Run(a, steps).removers[id] == a.removers[id]
    decreases |steps|
  {
    if steps != [] {
      StepKeepsInv(a, steps[0]);
      assert id in a.phases && RequestSound(a, id);
      var b := Apply(a, steps[0]);
      RemoverStays(a, steps[0], id);
      hide Apply, Inv;
      RemoverIsFinal(b, steps[1..], id);
    }
  }

  lemma RemoverStays(a: Adapter, step: Step, id: Id)
    requires Inv(a) && id in a.removers
    ensures id in Apply(a, step).removers && Apply(a, step).removers[id] == a.removers[id]
  {
    assert RequestSound(a, id);
  }

  /** In every interleaving a request leaves the table by one remover only, its channel is closed at
    * most once, and it returns the message with its own ID or learns of a reset, by that remover. */
  lemma OneRemoverCompletesARequest(a: Adapter, steps: seq<Step>, id: Id)
    requires Initial(a) && id in Run(a, steps).phases
    ensures var b := Run(a, steps);
      && id in b.channels && b.channels[id].closes <= 1
      && (id in b.pending <==> id !in b.removers)
      && (b.phases[id].Returned? && b.phases[id].outcome.Result? ==>
            id in b.removers && b.removers[id] == ByResponse(b.phases[id].outcome.message)
            && b.phases[id].outcome.message.id == id)
      && (b.phases[id] == Returned(Disconnected) ==> id in b.removers && b.removers[id] == ByReset)
      && (b.phases[id].Returned? ==> id !in b.pending)
  {
    RunKeepsInv(a, steps);
    assert RequestSound(Run(a, steps), id);
  }

  /** A waiting caller can always still be woken: its entry is in the table, its response is on the
    * way, or its channel is already closed and the next step returns. */
  lemma NoCallerIsForgotten(a: Adapter, steps: seq<Step>, id: Id)
    requires Initial(a) && id in Run(a, steps).phases && Run(a, steps).phases[id] == Waiting
    ensures var b := Run(a, steps);
      id in b.pending || id in b.held || Apply(b, Return(id)).phases[id].Returned?
    ensures var b := Run(a, steps);
      id in b.held ==> Apply(Apply(b, Deliver(id)), Return(id)).phases[id] == Returned(Result(b.held[id]))
  {
    RunKeepsInv(a, steps);
    assert RequestSound(Run(a, steps), id);
  }

  /** What a caller does to its own request: a written one waits, one that could not be written or was given
    * up is out of the table and returns why. */
  lemma CallerSettles(a: Adapter, id: Id, ok: bool)
    requires Inv(a) && id in a.phases
    ensures var w, c := Apply(a, Write(id, ok)), Apply(a, Cancel(id));
      && (a.phases[id] == Writing && ok ==> w == a.(phases := a.phases[id := Waiting]))
      && (a.phases[id] == Writing && !ok ==> w.phases[id] == Returned(Unwritten) && id !in w.pending)
      && (a.phases[id] == Waiting ==> c.phases[id] == Returned(Abandoned) && id !in c.pending)
      && (a.phases[id] != Writing ==> w == a) && (a.phases[id] != Waiting ==> c == a)
  {
  }

  /** A new request takes the next ID and waits in the table to be written. */
  lemma BeginSettles(a: Adapter)
    requires Inv(a)
    ensures var b := Apply(a, Begin); var id := a.next + 1;
      id !in a.phases && b.next == id && id in b.pending && id in b.phases && b.phases[id] == Writing
      && id in b.channels && b.channels[id] == Channel(None, 0) && b.pending - {id} == a.pending
  {
    assert a.next + 1 !in a.phases;
  }

  /** The end of a process that is no longer the current one changes nothing; the end of the current one
    * empties the table, and every caller that was waiting in it returns as disconnected. */
  lemma ResetSettles(a: Adapter, gone: nat, id: Id)
    requires Inv(a)
    ensures var b := Apply(a, Reset(gone));
      if gone != a.process then b == a
      else
        && b.process == 0 && b.pending == {}
        && (id in a.pending && a.phases[id] == Waiting ==> Apply(b, Return(id)).phases[id] == Returned(Disconnected))
        && (id in a.channels && id !in a.pending ==> b.channels[id] == a.channels[id])
  {
    if id in a.pending { assert RequestSound(a, id); }
  }

  /** The table as an object, with the two removers that run on the process's own goroutines. */
  class Requests {
    var process: nat
    var pending: set<Id>
    var channels: map<Id, Channel>
    ghost var next: Id
    ghost var held: map<Id, Message>
    ghost var phases: map<Id, Phase>
    ghost var removers: map<Id, Remover>

    ghost function State(): Adapter
      reads this
    {
      Adapter(process, next, pending, held, phases, channels, removers)
    }

    constructor ()
      ensures Initial(State())
    {
      process, pending, channels := 0, {}, map[];
      next, held, phases, removers := 0, map[], map[], map[];
    }

    /** Takes the entry under the lock, then sends and closes outside it. */
    method HandleResponse(m: Message)
      requires Inv(State())
      modifies this
      ensures State() == if m.id in old(held) then old(State()) else DeliverStep(RespondStep(old(State()), m), m.id)
      ensures Inv(State())
    {
      RespondKeepsInv(State(), m);
      DeliverKeepsInv(RespondStep(State(), m), m.id);
      assert m.id in held ==> RequestSound(State(), m.id);
      var found := m.id in pending;
      if found {
        assert RequestSound(State(), m.id);
        pending := pending - {m.id};
        removers := removers[m.id := ByResponse(m)];
        channels := channels[m.id := Channel(Some(m), channels[m.id].closes + 1)];
        assert held[m.id := m] - {m.id} == held;
      }
    }

    method ResetProcess(gone: nat)
      requires Inv(State())
      modifies this
      ensures State() == ResetStep(old(State()), gone)
    {
      if process != gone { return; }
      process := 0;
      ghost var all, done := pending, {};
      assert Closed(channels, {}) == channels && ResetBy(removers, {}) == removers;
      assert forall id | id in all :: RequestSound(State(), id);
      while pending != {}
        invariant pending == all - done && done <= all && all <= old(channels).Keys
        invariant process == 0 && next == old(next) && held == old(held) && phases == old(phases)
        invariant channels == Closed(old(channels), done) && removers == ResetBy(old(removers), done)
        decreases pending
      {
        var key :| key in pending;
        pending := pending - {key};
        channels := channels[key := channels[key].(closes := channels[key].closes + 1)];
        removers := removers[key := ByReset];
        OneMore(old(channels), old(removers), done, key);
        done := done + {key};
      }
      assert done == all;
    }
  }

  lemma OneMore(channels: map<Id, Channel>, removers: map<Id, Remover>, ids: set<Id>, key: Id)
    requires key in channels && key !in ids
    ensures Closed(channels, ids + {key}) ==
      Closed(channels, ids)[key := channels[key].(closes := channels[key].closes + 1)]
    ensures ResetBy(removers, ids + {key}) == ResetBy(removers, ids)[key := ByReset]
  {
  }
}
