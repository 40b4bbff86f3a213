/** The broadcast hub: events go to every subscriber's bounded channel, and a subscriber that is too
  * slow is disconnected rather than left without an event.
  *
  * A step is one send, or one critical section of the hub's lock. Publishers send under the read
  * lock, concurrently; subscribing, unsubscribing and disconnecting need it exclusively. */
module Hub {
  import opened Options

  type Id = nat

  const CAPACITY := 256

  /** Publications are numbered in the order in which they took the lock. A client keeps, as history,
    * how many there were when it subscribed, what it was sent, and how often it was closed. */
  datatype Client = Client(since: nat, sent: seq<nat>, received: nat, registered: bool, closes: nat)

  datatype Phase = Sending(todo: set<Id>, stalled: set<Id>) | Closing(stalled: set<Id>) | Returned

  datatype State = State(next: Id, clients: map<Id, Client>, begun: nat, publications: map<nat, Phase>)

  predicate Initial(h: State) { h.next == 0 && h.clients == map[] && h.begun == 0 && h.publications == map[] }

  datatype Step =
    | Subscribe
    | Unsubscribe(id: Id)
    | Begin
    | Send(n: nat, id: Id)
    | EndSend(n: nat)
    | CloseStalled(n: nat)
    | Receive(id: Id)

  /** No publisher holds the read lock. */
  predicate Exclusive(h: State) {
    forall n | n in h.publications :: !h.publications[n].Sending?
  }

  function Registered(clients: map<Id, Client>): set<Id> {
    set id | id in clients && clients[id].registered
  }

  function Disconnected(c: Client): Client {
    if c.registered then c.(registered := false, closes := c.closes + 1) else c
  }

  predicate Full(c: Client) { |c.sent| - c.received >= CAPACITY }

  function SendStep(h: State, n: nat, id: Id): State
    requires n in h.publications && h.publications[n].Sending? && id in h.clients
  {
    var p, c := h.publications[n], h.clients[id];
    if Full(c) then h.(publications := h.publications[n := Sending(p.todo - {id}, p.stalled + {id})])
    else h.(publications := h.publications[n := Sending(p.todo - {id}, p.stalled)],
            clients := h.clients[id := c.(sent := c.sent + [n])])
  }

  function CloseStep(h: State, n: nat, stalled: set<Id>): State {
    h.(publications := h.publications[n := Returned],
       clients := map id | id in h.clients :: if id in stalled then Disconnected(h.clients[id]) else h.clients[id])
  }

  function Apply(h: State, step: Step): State {
    match step
    case Subscribe =>
      if Exclusive(h) then h.(next := h.next + 1, clients := h.clients[h.next + 1 := Client(h.begun, [], 0, true, 0)]) else h
    case Unsubscribe(id) =>
      if Exclusive(h) && id in h.clients then h.(clients := h.clients[id := Disconnected(h.clients[id])]) else h
    case Begin =>
      h.(begun := h.begun + 1, publications := h.publications[h.begun + 1 := Sending(Registered(h.clients), {})])
    case Send(n, id) =>
      if n in h.publications && h.publications[n].Sending? && id in h.publications[n].todo && id in h.clients
      then SendStep(h, n, id) else h
    case EndSend(n) =>
      if n in h.publications && h.publications[n].Sending? && h.publications[n].todo == {} then
        var stalled := h.publications[n].stalled;
        h.(publications := h.publications[n := if stalled == {} then Returned else Closing(stalled)])
      else h
    case CloseStalled(n) =>
      if n in h.publications && h.publications[n].Closing? && Exclusive(h)
      then CloseStep(h, n, h.publications[n].stalled) else h
    case Receive(id) =>
      if id in h.clients && h.clients[id].received < |h.clients[id].sent|
      then h.(clients := h.clients[id := h.clients[id].(received := h.clients[id].received + 1)]) else h
  }

  function Run(h: State, steps: seq<Step>): State
    decreases |steps|
  {
    if steps == [] then h else Run(Apply(h, steps[0]), steps[1..])
  }

  function Todo(p: Phase): set<Id> { if p.Sending? then p.todo else {} }

  function Stalled(p: Phase): set<Id> { if p.Returned? then {} else p.stalled }

  /** What is known of one publication and one client: it was sent, or it is still to be sent, or the
    * client is about to be disconnected for it. */
  predicate PairSound(h: State, n: nat, id: Id)
    requires n in h.publications && id in h.clients
  {
    var p, c := h.publications[n], h.clients[id];
    && (n in c.sent || id in Todo(p) || id in Stalled(p) ==> c.since < n)
    && (n in c.sent ==> id !in Todo(p) && id !in Stalled(p))
    && (id in Todo(p) ==> c.registered && id !in Stalled(p))
    && (c.registered && c.since < n ==> n in c.sent || id in Todo(p) || id in Stalled(p))
  }

  predicate ClientSound(h: State, id: Id)
    requires id in h.clients
  {
    var c := h.clients[id];
    && id <= h.next && c.since <= h.begun
    && c.received <= |c.sent| <= c.received + CAPACITY
    && (forall i | 0 <= i < |c.sent| :: c.sent[i] in h.publications)
    && (forall i, j | 0 <= i < j < |c.sent| :: c.sent[i] != c.sent[j])
    && c.closes == if c.registered then 0 else 1
  }

  ghost predicate Inv(h: State) {
    && (forall n | n in h.publications :: 1 <= n <= h.begun && Todo(h.publications[n]) + Stalled(h.publications[n]) <= h.clients.Keys)
    && (forall id | id in h.clients :: ClientSound(h, id))
    && (forall n, id | n in h.publications && id in h.clients :: PairSound(h, n, id))
  }

  lemma SubscribeKeepsInv(h: State)
    requires Inv(h)
    ensures Inv(Apply(h, Subscribe))
  {
  }

  lemma UnsubscribeKeepsInv(h: State, id: Id)
    requires Inv(h)
    ensures Inv(Apply(h, Unsubscribe(id)))
  {
  }

  lemma BeginKeepsInv(h: State)
    requires Inv(h)
    ensures Inv(Apply(h, Begin))
  {
  }

  lemma SendKeepsClient(h: State, n: nat, id: Id, other: Id)
    requires n in h.publications && h.publications[n].Sending? && id in h.publications[n].todo
    requires id in h.clients && other in h.clients && ClientSound(h, other) && PairSound(h, n, id)
    ensures ClientSound(SendStep(h, n, id), other)
  {
  }

  lemma SendKeepsPair(h: State, n: nat, id: Id, m: nat, other: Id)
    requires n in h.publications && h.publications[n].Sending? && id in h.publications[n].todo
    requires id in h.clients && other in h.clients && m in h.publications
    requires PairSound(h, n, id) && PairSound(h, m, other)
    ensures PairSound(SendStep(h, n, id), m, other)
  {
  }

  lemma SendKeepsInv(h: State, n: nat, id: Id)
    requires Inv(h)
    ensures Inv(Apply(h, Send(n, id)))
  {
    if n in h.publications && h.publications[n].Sending? && id in h.publications[n].todo && id in h.clients {
      forall other | other in h.clients ensures ClientSound(SendStep(h, n, id), other) {
        SendKeepsClient(h, n, id, other);
      }
      forall m, other | m in h.publications && other in h.clients ensures PairSound(SendStep(h, n, id), m, other) {
        SendKeepsPair(h, n, id, m, other);
      }
      hide ClientSound, PairSound;
    }
  }

  lemma EndSendKeepsInv(h: State, n: nat)
    requires Inv(h)
    ensures Inv(Apply(h, EndSend(n)))
  {
  }

  lemma CloseKeepsInv(h: State, n: nat)
    requires Inv(h)
    ensures Inv(Apply(h, CloseStalled(n)))
  {
  }

  lemma ReceiveKeepsInv(h: State, id: Id)
    requires Inv(h)
    ensures Inv(Apply(h, Receive(id)))
  {
  }

  lemma StepKeepsInv(h: State, step: Step)
    requires Inv(h)
    ensures Inv(Apply(h, step))
  {
    hide Inv, Apply;
    match step
    case Subscribe => SubscribeKeepsInv(h);
    case Unsubscribe(id) => UnsubscribeKeepsInv(h, id);
    case Begin => BeginKeepsInv(h);
    case Send(n, id) => SendKeepsInv(h, n, id);
    case EndSend(n) => EndSendKeepsInv(h, n);
    case CloseStalled(n) => CloseKeepsInv(h, n);
    case Receive(id) => ReceiveKeepsInv(h, id);
  }

  lemma {:induction false} RunKeepsInv(h: State, steps: seq<Step>)
    requires Inv(h)
    ensures Inv(Run(h, steps))
    decreases |steps|
  {
    hide Inv, Apply;
    if steps != [] {
      StepKeepsInv(h, steps[0]);
      RunKeepsInv(Apply(h, steps[0]), steps[1..]);
    }
  }

  /** In every interleaving: a subscriber that is registered has been sent every publication that
    * began after it subscribed, unless that publication is still on its way to it or is about to
    * disconnect it; nothing is sent twice, and nothing from before it subscribed. */
  lemma NoSilentLoss(h: State, steps: seq<Step>, n: nat, id: Id)
    requires Initial(h) && n in Run(h, steps).publications && id in Run(h, steps).clients
    ensures var g := Run(h, steps);
      var p, c := g.publications[n], g.clients[id];
      && (c.registered && c.since < n && p.Returned? ==> n in c.sent)
      && (c.registered && c.since < n && n !in c.sent ==> id in Todo(p) || id in Stalled(p))
      && (n in c.sent ==> c.since < n)
      && (forall i, j | 0 <= i < j < |c.sent| :: c.sent[i] != c.sent[j])
  {
    RunKeepsInv(h, steps);
    assert PairSound(Run(h, steps), n, id) && ClientSound(Run(h, steps), id);
  }

  /** A subscriber that missed a publication is disconnected by the time the publication returns. */
  lemma MissedMeansDisconnected(h: State, steps: seq<Step>, n: nat, id: Id)
    requires Initial(h) && n in Run(h, steps).publications && id in Run(h, steps).clients
    requires var g := Run(h, steps);
      g.publications[n].Returned? && g.clients[id].since < n && n !in g.clients[id].sent
    ensures !Run(h, steps).clients[id].registered && Run(h, steps).clients[id].closes == 1
  {
    RunKeepsInv(h, steps);
    assert PairSound(Run(h, steps), n, id) && ClientSound(Run(h, steps), id);
  }

  /** A channel is closed exactly once, when its subscriber leaves the hub. */
  lemma ChannelsCloseOnce(h: State, steps: seq<Step>, id: Id)
    requires Initial(h) && id in Run(h, steps).clients
    ensures var c := Run(h, steps).clients[id]; c.closes == if c.registered then 0 else 1
  {
    RunKeepsInv(h, steps);
    assert ClientSound(Run(h, steps), id);
  }

  /** A late list of stalled subscribers disconnects nobody who subscribed after the publication
    * began, and nobody who has been sent it. */
  lemma StaleListSparesLaterSubscribers(h: State, steps: seq<Step>, n: nat, id: Id)
    requires Initial(h) && n in Run(h, steps).publications && id in Run(h, steps).clients
    requires var g := Run(h, steps); n <= g.clients[id].since || n in g.clients[id].sent
    ensures var g := Run(h, steps); Apply(g, CloseStalled(n)).clients[id] == g.clients[id]
  {
    RunKeepsInv(h, steps);
    assert PairSound(Run(h, steps), n, id);
  }

  /** A publication reaches a subscriber exactly if fewer than 256 events wait for it; otherwise the
    * subscriber is put on the publication's list of stalled ones. */
  lemma SendSettles(h: State, n: nat, id: Id)
    requires n in h.publications && h.publications[n].Sending? && id in h.publications[n].todo && id in h.clients
    ensures var g, c := Apply(h, Send(n, id)), h.clients[id];
      var waiting := |c.sent| - c.received;
      && g.publications[n].Sending? && g.publications[n].todo == h.publications[n].todo - {id}
      && (waiting < 256 ==>
            g.clients == h.clients[id := c.(sent := c.sent + [n])] && g.publications[n].stalled == h.publications[n].stalled)
      && (waiting >= 256 ==> g.clients == h.clients && g.publications[n].stalled == h.publications[n].stalled + {id})
  {
  }

  /** Subscribing and unsubscribing wait for publications that are being sent; then a subscriber gets a new
    * name and an empty channel, and loses it when it leaves. */
  lemma SubscribersSettle(h: State, id: Id)
    requires Inv(h) && id in h.clients
    ensures var sending := exists n | n in h.publications :: h.publications[n].Sending?;
      var g, u := Apply(h, Subscribe), Apply(h, Unsubscribe(id));
      && (sending ==> g == h && u == h)
      && (!sending ==>
            && g.next == h.next + 1 && g.next !in h.clients && g.clients == h.clients[g.next := Client(h.begun, [], 0, true, 0)]
            && g.begun == h.begun && g.publications == h.publications
            && u.clients[id] == h.clients[id].(registered := false, closes := 1)
            && u == h.(clients := h.clients[id := u.clients[id]]))
  {
    assert ClientSound(h, id);
  }

  /** A publication takes the next number and is on its way to everyone who is registered. */
  lemma BeginSettles(h: State)
    requires Inv(h)
    ensures var g, n := Apply(h, Begin), h.begun + 1;
      && n !in h.publications && g.begun == n && g.clients == h.clients && g.next == h.next
      && g.publications == h.publications[n := g.publications[n]]
      && g.publications[n] == Sending(set id | id in h.clients && h.clients[id].registered, {})
  {
  }

  function Count(condition: bool): nat { if condition then 1 else 0 }

  /** The hub as an object, where one publication runs without another in between. */
  class Broadcast {
    var next: Id
    var clients: map<Id, seq<string>>
    ghost var closed: multiset<Id>

    ghost predicate Valid()
      reads this
    {
      && (forall id | id in clients :: id <= next && |clients[id]| <= CAPACITY && id !in closed)
      && (forall id | id in closed :: closed[id] == 1 && id <= next)
    }

    constructor ()
      ensures Valid() && clients == map[] && closed == multiset{}
    {
      next, clients, closed := 0, map[], multiset{};
    }

    method Subscribe() returns (id: Id)
      requires Valid()
      modifies this
      ensures Valid() && id !in old(clients) && id !in old(closed) && id == next > old(next)
      ensures clients == old(clients)[id := []] && closed == old(closed)
    {
      next := next + 1;
      id := next;
      clients := clients[id := []];
    }

    method Unsubscribe(id: Id)
      requires Valid()
      modifies this`clients, this`closed
      ensures Valid() && clients == old(clients) - {id}
      ensures closed == if id in old(clients) then old(closed) + multiset{id} else old(closed)
    {
      if id in clients {
        clients := clients - {id};
        closed := closed + multiset{id};
      } else {
        assert clients == clients - {id};
      }
    }

    /** Everyone with room gets the event; everyone without is disconnected before it returns. */
    method Publish(event: string)
      requires Valid()
      modifies this`clients, this`closed
      ensures Valid()
      ensures clients == map id | id in old(clients) && |old(clients)[id]| < CAPACITY :: old(clients)[id] + [event]
      ensures forall id :: closed[id] == old(closed)[id] + Count(id in old(clients) && |old(clients)[id]| == CAPACITY)
    {
      var stalled: set<Id>, left := {}, clients.Keys;
      while left != {}
        invariant left <= clients.Keys && clients.Keys == old(clients).Keys && closed == old(closed)
        invariant stalled == set id | id in old(clients) && id !in left && |old(clients)[id]| == CAPACITY
        invariant forall id | id in clients ::
          clients[id] == if id in left || id in stalled then old(clients)[id] else old(clients)[id] + [event]
        decreases left
      {
        var id :| id in left;
        if |clients[id]| < CAPACITY {
          clients := clients[id := clients[id] + [event]];
        } else {
          stalled := stalled + {id};
        }
        left := left - {id};
      }
      Disconnect(stalled);
    }

    method Disconnect(stalled: set<Id>)
      requires Valid()
      modifies this`clients, this`closed
      ensures Valid() && clients == old(clients) - stalled
      ensures forall id :: closed[id] == old(closed)[id] + Count(id in old(clients) && id in stalled)
    {
      var left := stalled;
      while left != {}
        invariant left <= stalled && Valid()
        invariant clients == old(clients) - (stalled - left)
        invariant forall id :: closed[id] == old(closed)[id] + Count(id in old(clients) && id in stalled && id !in left)
        decreases left
      {
        var id :| id in left;
        Unsubscribe(id);
        left := left - {id};
      }
    }
  }
}
