/** The pool of Codex sessions: leases taken by callers, and the three activities that close adapters.
  *
  * A step is one critical section of the pool's mutex, or one lock or close between two of them.
  * Callers and the reaper hold the lifecycle lock for reading, reconfiguring and closing for writing. */
module CodexSessions {
  import opened Options

  type Client = nat
  type Thread = string
  type Adapter = nat

  /** `users` is the counter; `holders` is history, the clients that hold the lease. */
  datatype Session = Session(adapter: Adapter, users: int, holders: set<Client>)

  datatype Lease = Shared | Leased(thread: Thread, adapter: Adapter)
  datatype Reaper = Resting | Reading | Reaping(left: set<Adapter>)
  datatype Writer = NoWriter | Locked | Updating(adapters: set<Adapter>) | Closing(left: set<Adapter>)

  const SHARED: Adapter := 0

  datatype Pool = Pool(
    sessions: map<Thread, Session>, next: Adapter, shut: bool, closed: set<Adapter>,
    readers: set<Client>, leases: map<Client, Lease>, reaper: Reaper, writer: Writer)

  predicate Initial(p: Pool) {
    && p.sessions == map[] && p.next == 1 && !p.shut && p.closed == {} && p.readers == {} && p.leases == map[]
    && p.reaper == Resting && p.writer == NoWriter
  }

  function Adapters(sessions: map<Thread, Session>): set<Adapter> {
    set t | t in sessions :: sessions[t].adapter
  }

  function LeasedAdapter(lease: Lease): Adapter { if lease.Shared? then SHARED else lease.adapter }

  datatype Step =
    | Enter(client: Client)
    | Acquire(client: Client, thread: Thread)
    | Release(client: Client)
    | Leave(client: Client)
    | ReaperEnter
    | ReapIdle(expired: set<Thread>, active: set<Adapter>)
    | ReaperClose(adapter: Adapter)
    | ReaperLeave
    | Lock
    | Reconfigure(active: set<Adapter>)
    | Swap(updated: bool)
    | Shut
    | WriterClose(adapter: Adapter)
    | Unlock

  function AcquireStep(p: Pool, c: Client, thread: Thread): Pool {
    if c !in p.readers || c in p.leases || p.shut then p
    else if thread == "" then p.(leases := p.leases[c := Shared])
    else if thread in p.sessions then
      var s := p.sessions[thread];
      p.(sessions := p.sessions[thread := s.(users := s.users + 1, holders := s.holders + {c})],
         leases := p.leases[c := Leased(thread, s.adapter)])
    else
      p.(sessions := p.sessions[thread := Session(p.next, 1, {c})], next := p.next + 1,
         leases := p.leases[c := Leased(thread, p.next)])
  }

  function ReleaseStep(p: Pool, c: Client): Pool {
    if c !in p.leases then p
    else
      var q := p.(leases := p.leases - {c});
      if p.leases[c].Shared? || p.leases[c].thread !in p.sessions then q
      else
        var thread := p.leases[c].thread;
        var s := p.sessions[thread];
        q.(sessions := p.sessions[thread := s.(users := s.users - 1, holders := s.holders - {c})])
  }

  /** The reaper takes a session out of the pool when no caller uses it, it has expired, and it has
    * no active turn. */
  predicate Reapable(s: Session, thread: Thread, expired: set<Thread>, active: set<Adapter>) {
    s.users == 0 && thread in expired && s.adapter !in active
  }

  function ReapStep(p: Pool, expired: set<Thread>, active: set<Adapter>): Pool {
    p.(sessions := map t | t in p.sessions && !Reapable(p.sessions[t], t, expired, active) :: p.sessions[t],
       reaper := Reaping(set t | t in p.sessions && Reapable(p.sessions[t], t, expired, active) :: p.sessions[t].adapter))
  }

  function CallerStep(p: Pool, step: Step): Pool {
    match step
    case Enter(c) => if p.writer == NoWriter then p.(readers := p.readers + {c}) else p
    case Acquire(c, thread) => AcquireStep(p, c, thread)
    case Release(c) => ReleaseStep(p, c)
    case Leave(c) => if c in p.leases then p else p.(readers := p.readers - {c})
    case _ => p
  }

  function ReaperStep(p: Pool, step: Step): Pool {
    match (p.reaper, step)
    case (Resting, ReaperEnter) => if p.writer == NoWriter then p.(reaper := Reading) else p
    case (Reading, ReapIdle(expired, active)) => ReapStep(p, expired, active)
    case (Reaping(left), ReaperClose(a)) =>
      if a in left then p.(closed := p.closed + {a}, reaper := Reaping(left - {a})) else p
    case (Reaping(left), ReaperLeave) => if left == {} then p.(reaper := Resting) else p
    case _ => p
  }

  function WriterStep(p: Pool, step: Step): Pool {
    match (p.writer, step)
    case (NoWriter, Lock) => if p.readers == {} && p.reaper == Resting then p.(writer := Locked) else p
    case (Locked, Reconfigure(active)) =>
      if p.shut || active * Adapters(p.sessions) != {} then p else p.(writer := Updating(Adapters(p.sessions)))
    case (Updating(adapters), Swap(updated)) =>
      if updated then p.(sessions := map[], writer := Closing(adapters)) else p.(writer := Locked)
    case (Locked, Shut) =>
      if p.shut then p else p.(shut := true, sessions := map[], writer := Closing(Adapters(p.sessions) + {SHARED}))
    case (Closing(left), WriterClose(a)) =>
      if a in left then p.(closed := p.closed + {a}, writer := Closing(left - {a})) else p
    case (Closing(left), Unlock) => if left == {} then p.(writer := NoWriter) else p
    case (Locked, Unlock) => p.(writer := NoWriter)
    case _ => p
  }

  function Apply(p: Pool, step: Step): Pool {
    match step
    case Enter(_) => CallerStep(p, step)
    case Acquire(_, _) => CallerStep(p, step)
    case Release(_) => CallerStep(p, step)
    case Leave(_) => CallerStep(p, step)
    case ReaperEnter => ReaperStep(p, step)
    case ReapIdle(_, _) => ReaperStep(p, step)
    case ReaperClose(_) => ReaperStep(p, step)
    case ReaperLeave => ReaperStep(p, step)
    case _ => WriterStep(p, step)
  }

  function Run(p: Pool, steps: seq<Step>): Pool
    decreases |steps|
  {
    if steps == [] then p else Run(Apply(p, steps[0]), steps[1..])
  }

  function ReaperLeft(p: Pool): set<Adapter> { if p.reaper.Reaping? then p.reaper.left else {} }

  function WriterLeft(p: Pool): set<Adapter> { if p.writer.Closing? then p.writer.left else {} }

  predicate LocksSound(p: Pool) {
    && (p.writer != NoWriter ==> p.readers == {} && p.reaper == Resting)
    && (forall c | c in p.leases :: c in p.readers)
    && (p.shut ==> p.leases == map[])
    && (p.writer.Updating? ==> p.writer.adapters == Adapters(p.sessions) && !p.shut)
  }

  /** Each session counts exactly the clients that lease its adapter. */
  predicate CountsSound(p: Pool) {
    && (forall t | t in p.sessions :: p.sessions[t].users == |p.sessions[t].holders|)
    && (forall t, c | t in p.sessions && c in p.sessions[t].holders ::
          c in p.leases && p.leases[c] == Leased(t, p.sessions[t].adapter))
    && (forall c | c in p.leases && p.leases[c].Leased? ::
          p.leases[c].thread in p.sessions && c in p.sessions[p.leases[c].thread].holders)
  }

  /** Adapters taken out to be closed are still open, and in no session. */
  predicate Detached(left: set<Adapter>, p: Pool) {
    && (forall a | a in left :: a < p.next && a !in p.closed)
    && (forall t | t in p.sessions :: p.sessions[t].adapter !in left)
    && (SHARED in left ==> p.shut)
  }

  /** An adapter in the pool is open and belongs to one session. */
  predicate AdaptersSound(p: Pool) {
    && p.next > SHARED
    && (forall a | a in p.closed :: a < p.next)
    && (forall t | t in p.sessions :: SHARED < p.sessions[t].adapter < p.next && p.sessions[t].adapter !in p.closed)
    && (forall t, u | t in p.sessions && u in p.sessions :: p.sessions[t].adapter == p.sessions[u].adapter ==> t == u)
    && (SHARED in p.closed ==> p.shut)
    && (p.shut ==> p.sessions == map[])
    && Detached(ReaperLeft(p), p) && Detached(WriterLeft(p), p)
  }

  predicate Inv(p: Pool) { LocksSound(p) && CountsSound(p) && AdaptersSound(p) }

  lemma AcquireKeepsCounts(p: Pool, c: Client, thread: Thread)
    requires LocksSound(p) && CountsSound(p)
    ensures CountsSound(AcquireStep(p, c, thread))
  {
  }

  lemma AcquireKeepsAdapters(p: Pool, c: Client, thread: Thread)
    requires LocksSound(p) && AdaptersSound(p)
    ensures LocksSound(AcquireStep(p, c, thread)) && AdaptersSound(AcquireStep(p, c, thread))
  {
  }

  lemma ReleaseKeepsCounts(p: Pool, c: Client)
    requires CountsSound(p)
    ensures CountsSound(ReleaseStep(p, c))
  {
  }

  lemma ReleaseKeepsAdapters(p: Pool, c: Client)
    requires LocksSound(p) && AdaptersSound(p)
    ensures LocksSound(ReleaseStep(p, c)) && AdaptersSound(ReleaseStep(p, c))
  {
  }

  lemma LeaveKeepsInv(p: Pool, c: Client)
    requires Inv(p) && c !in p.leases
    ensures Inv(p.(readers := p.readers - {c}))
  {
  }

  lemma CallerKeepsInv(p: Pool, step: Step)
    requires Inv(p)
    ensures Inv(CallerStep(p, step))
  {
    hide AcquireStep, ReleaseStep;
    match step
    case Acquire(c, thread) =>
      AcquireKeepsCounts(p, c, thread);
      AcquireKeepsAdapters(p, c, thread);
      hide LocksSound, CountsSound, AdaptersSound;
    case Release(c) =>
      ReleaseKeepsCounts(p, c);
      ReleaseKeepsAdapters(p, c);
      hide LocksSound, CountsSound, AdaptersSound;
    case Enter(_) =>
    case Leave(c) => if c !in p.leases { LeaveKeepsInv(p, c); }
    case _ => hide LocksSound, CountsSound, AdaptersSound;
  }

  lemma ReapKeepsInv(p: Pool, expired: set<Thread>, active: set<Adapter>)
    requires Inv(p) && p.reaper == Reading
    ensures Inv(ReapStep(p, expired, active))
  {
  }

  lemma ReaperKeepsCounts(p: Pool, step: Step)
    requires Inv(p)
    ensures LocksSound(ReaperStep(p, step)) && CountsSound(ReaperStep(p, step))
  {
    hide ReapStep, AdaptersSound;
    if p.reaper == Reading && step.ReapIdle? { ReapKeepsInv(p, step.expired, step.active); }
  }

  lemma ReaperKeepsAdapters(p: Pool, step: Step)
    requires Inv(p)
    ensures AdaptersSound(ReaperStep(p, step))
  {
    hide ReapStep, CountsSound;
    if p.reaper == Reading && step.ReapIdle? {
      ReapKeepsInv(p, step.expired, step.active);
      hide LocksSound, AdaptersSound;
    }
  }

  lemma WriterKeepsCounts(p: Pool, step: Step)
    requires LocksSound(p) && CountsSound(p)
    ensures LocksSound(WriterStep(p, step)) && CountsSound(WriterStep(p, step))
  {
  }

  lemma WriterKeepsAdapters(p: Pool, step: Step)
    requires LocksSound(p) && AdaptersSound(p)
    ensures AdaptersSound(WriterStep(p, step))
  {
    match step
    case WriterClose(_) =>
    case Shut =>
    case _ =>
  }

  lemma {:induction false} RunKeepsInv(p: Pool, steps: seq<Step>)
    requires Inv(p)
    ensures Inv(Run(p, steps))
    decreases |steps|
  {
    hide CallerStep, ReaperStep, WriterStep, LocksSound, CountsSound, AdaptersSound;
    if steps != [] {
      CallerKeepsInv(p, steps[0]);
      ReaperKeepsCounts(p, steps[0]);
      ReaperKeepsAdapters(p, steps[0]);
      WriterKeepsCounts(p, steps[0]);
      WriterKeepsAdapters(p, steps[0]);
      RunKeepsInv(Apply(p, steps[0]), steps[1..]);
    }
  }

  /** In every run, no adapter that a caller has leased is closed or about to be closed, whatever the
    * reaper, a reconfiguration and a shutdown do; and a lease is always on the session in the pool. */
  lemma LeasedIsNeverClosed(p: Pool, steps: seq<Step>, c: Client)
    requires Initial(p) && c in Run(p, steps).leases
    ensures var q := Run(p, steps);
      var a := LeasedAdapter(q.leases[c]);
      && a !in q.closed && a !in ReaperLeft(q) && a !in WriterLeft(q) && !q.shut
      && (q.leases[c].Leased? ==> q.leases[c].thread in q.sessions && q.sessions[q.leases[c].thread].adapter == a)
  {
    RunKeepsInv(p, steps);
  }

  /** No adapter is closed twice. */
  lemma AdaptersCloseOnce(p: Pool, steps: seq<Step>, a: Adapter)
    requires Initial(p) && a in Run(p, steps).closed
    ensures Apply(Run(p, steps), ReaperClose(a)) == Run(p, steps)
    ensures Apply(Run(p, steps), WriterClose(a)) == Run(p, steps)
  {
    RunKeepsInv(p, steps);
  }

  /** A session is reaped exactly when no caller holds it: its counter cannot be wrong. */
  lemma ReapedIsUnheld(p: Pool, steps: seq<Step>, expired: set<Thread>, active: set<Adapter>, t: Thread)
    requires Initial(p) && Run(p, steps).reaper == Reading && t in Run(p, steps).sessions
    ensures var q := Run(p, steps);
      t !in Apply(q, ReapIdle(expired, active)).sessions <==>
        t in expired && q.sessions[t].adapter !in active
        && forall c | c in q.leases :: q.leases[c].Shared? || q.leases[c].thread != t
  {
    hide Run;
    RunKeepsInv(p, steps);
    var q := Run(p, steps);
    var s := q.sessions[t];
    assert t !in ReapStep(q, expired, active).sessions <==> Reapable(s, t, expired, active);
    if s.holders != {} {
      var c :| c in s.holders;
      assert q.leases[c] == Leased(t, s.adapter);
    }
  }

  /** Every adapter that was ever made is in the pool, taken out to be closed, or closed. */
  predicate Accounted(p: Pool) {
    && (forall a | SHARED < a < p.next :: a in Adapters(p.sessions) || a in ReaperLeft(p) || a in WriterLeft(p) || a in p.closed)
    && (p.shut ==> SHARED in WriterLeft(p) || SHARED in p.closed)
  }

  lemma CallerKeepsAccounted(p: Pool, step: Step)
    requires Accounted(p)
    ensures Accounted(CallerStep(p, step))
  {
    var q := CallerStep(p, step);
    forall a | SHARED < a < q.next
      ensures a in Adapters(q.sessions) || a in ReaperLeft(q) || a in WriterLeft(q) || a in q.closed
    {
      if a < p.next && a in Adapters(p.sessions) {
        var t :| t in p.sessions && p.sessions[t].adapter == a;
        assert t in q.sessions && q.sessions[t].adapter == a;
      } else if a >= p.next {
        assert step.Acquire? && q.sessions[step.thread].adapter == a;
      }
    }
  }

  lemma ReaperKeepsAccounted(p: Pool, step: Step)
    requires Accounted(p)
    ensures Accounted(ReaperStep(p, step))
  {
    var q := ReaperStep(p, step);
    forall a | SHARED < a < q.next
      ensures a in Adapters(q.sessions) || a in ReaperLeft(q) || a in WriterLeft(q) || a in q.closed
    {
      if a in Adapters(p.sessions) {
        var t :| t in p.sessions && p.sessions[t].adapter == a;
        assert t in q.sessions ==> q.sessions[t].adapter == a;
      }
    }
  }

  lemma WriterKeepsAccounted(p: Pool, step: Step)
    requires Accounted(p) && LocksSound(p)
    ensures Accounted(WriterStep(p, step))
  {
  }

  lemma {:induction false} RunKeepsAccounted(p: Pool, steps: seq<Step>)
    requires Inv(p) && Accounted(p)
    ensures Accounted(Run(p, steps))
    decreases |steps|
  {
    if steps != [] {
      RunKeepsInv(p, [steps[0]]);
      assert [steps[0]][1..] == [] && Run(p, [steps[0]]) == Run(Apply(p, steps[0]), []);
      hide CallerStep, ReaperStep, WriterStep, Inv, LocksSound, Accounted;
      CallerKeepsAccounted(p, steps[0]);
      ReaperKeepsAccounted(p, steps[0]);
      InvLocks(p);
      WriterKeepsAccounted(p, steps[0]);
      RunKeepsAccounted(Apply(p, steps[0]), steps[1..]);
    }
  }

  lemma InvLocks(p: Pool)
    requires Inv(p)
    ensures LocksSound(p)
  {
  }

  /** No adapter is lost: in every run each one that was made is in the pool, or taken out to be closed, or
    * closed, and only one of these; and a shut pool closes the shared one too. */
  lemma NoAdapterLeaks(p: Pool, steps: seq<Step>, a: Adapter)
    requires Initial(p)
    ensures var q := Run(p, steps);
      && (SHARED < a < q.next ==>
            (a in Adapters(q.sessions)) || (a in ReaperLeft(q)) || (a in WriterLeft(q)) || (a in q.closed))
      && (a in Adapters(q.sessions) ==> a !in ReaperLeft(q) && a !in WriterLeft(q) && a !in q.closed)
      && (a in ReaperLeft(q) || a in WriterLeft(q) ==> a !in q.closed)
      && (q.shut ==> SHARED in WriterLeft(q) || SHARED in q.closed)
  {
    RunKeepsInv(p, steps);
    RunKeepsAccounted(p, steps);
  }

  /** The four things that the pool's writer does: it refuses to reconfigure exactly a pool that is shut or
    * has an active turn, a change that failed keeps every session, one that worked replaces them all, and
    * shutting takes every adapter out. */
  lemma WriterSettles(p: Pool, active: set<Adapter>)
    requires p.writer == Locked
    ensures var q := Apply(p, Reconfigure(active));
      && (q == p <==> p.shut || exists t | t in p.sessions :: p.sessions[t].adapter in active)
      && (q != p ==>
            && q == p.(writer := Updating(Adapters(p.sessions)))
            && Apply(q, Swap(false)) == p
            && Apply(q, Swap(true)) == p.(sessions := map[], writer := Closing(Adapters(p.sessions))))
    ensures Apply(p, Shut) ==
      if p.shut then p else p.(shut := true, sessions := map[], writer := Closing(Adapters(p.sessions) + {SHARED}))
  {
    if t :| t in p.sessions && p.sessions[t].adapter in active {
      assert p.sessions[t].adapter in active * Adapters(p.sessions);
    }
  }

  /** Who gets which adapter: the shared one exactly without a thread, the thread's own adapter if the
    * pool has one, and otherwise a new one; nothing else in the pool changes. */
  lemma AcquireGivesExactly(p: Pool, c: Client, thread: Thread)
    requires Inv(p) && c in p.readers && c !in p.leases && !p.shut
    ensures var q := Apply(p, Acquire(c, thread));
      && c in q.leases && q.leases - {c} == p.leases && q == p.(sessions := q.sessions, next := q.next, leases := q.leases)
      && (q.leases[c] == Shared <==> thread == "")
      && (thread in p.sessions && thread != "" ==>
            q.leases[c] == Leased(thread, p.sessions[thread].adapter) && q.next == p.next)
      && (thread !in p.sessions && thread != "" ==>
            q.leases[c] == Leased(thread, p.next) && q.next == p.next + 1 && p.next !in Adapters(p.sessions)
            && p.next !in p.closed)
      && (thread == "" ==> q.sessions == p.sessions && q.next == p.next)
  {
    assert p.leases[c := Shared] - {c} == p.leases;
  }

  /** In every run callers of one thread share one adapter, which is not the shared one, and callers of
    * different threads never do. */
  lemma OneAdapterPerThread(p: Pool, steps: seq<Step>, c: Client, d: Client)
    requires Initial(p) && c in Run(p, steps).leases && d in Run(p, steps).leases
    requires Run(p, steps).leases[c].Leased? && Run(p, steps).leases[d].Leased?
    ensures var q := Run(p, steps);
      && (q.leases[c].thread == q.leases[d].thread <==> q.leases[c].adapter == q.leases[d].adapter)
      && q.leases[c].adapter != SHARED
  {
    RunKeepsInv(p, steps);
  }

  /** Giving the lease back undoes taking it, except that a new session stays in the pool, unused. */
  lemma ReleaseUndoesAcquire(p: Pool, c: Client, thread: Thread)
    requires Inv(p) && c in p.readers && c !in p.leases && !p.shut
    ensures Apply(Apply(p, Acquire(c, thread)), Release(c)) ==
      if thread == "" || thread in p.sessions then p
      else p.(sessions := p.sessions[thread := Session(p.next, 0, {})], next := p.next + 1)
  {
    if thread == "" {
      assert p.leases[c := Shared] - {c} == p.leases;
    } else if thread in p.sessions {
      ReleaseUndoesJoin(p, c, thread);
    } else {
      assert p.leases[c := Leased(thread, p.next)] - {c} == p.leases && {c} - {c} == {};
      assert p.sessions[thread := Session(p.next, 1, {c})][thread := Session(p.next, 0, {})]
          == p.sessions[thread := Session(p.next, 0, {})];
    }
  }

  lemma ReleaseUndoesJoin(p: Pool, c: Client, thread: Thread)
    requires Inv(p) && c in p.readers && c !in p.leases && !p.shut && thread != "" && thread in p.sessions
    ensures Apply(Apply(p, Acquire(c, thread)), Release(c)) == p
  {
    var s := p.sessions[thread];
    assert c !in s.holders && s.holders + {c} - {c} == s.holders;
    assert p.leases[c := Leased(thread, s.adapter)] - {c} == p.leases;
    hide Inv;
    assert p.sessions[thread := s.(users := s.users + 1, holders := s.holders + {c})][thread := s] == p.sessions;
  }

  /** The pool as an object. Its lock state and leases are history; each method is one critical section. */
  class Sessions {
    var sessions: map<Thread, Session>
    var next: Adapter
    var shut: bool
    ghost var closed: set<Adapter>
    ghost var readers: set<Client>
    ghost var leases: map<Client, Lease>
    ghost var reaper: Reaper
    ghost var writer: Writer

    ghost function State(): Pool
      reads this
    {
      Pool(sessions, next, shut, closed, readers, leases, reaper, writer)
    }

    constructor ()
      ensures Initial(State())
    {
      sessions, next, shut := map[], 1, false;
      closed, readers, leases, reaper, writer := {}, {}, map[], Resting, NoWriter;
    }

    method Acquire(c: Client, thread: Thread) returns (adapter: Option<Adapter>)
      requires c in readers && c !in leases
      modifies this
      ensures State() == AcquireStep(old(State()), c, thread)
      ensures adapter == if shut then None else Some(LeasedAdapter(leases[c]))
    {
      if shut { return None; }
      if thread == "" {
        leases := leases[c := Shared];
        return Some(SHARED);
      }
      var s;
      if thread in sessions {
        s := sessions[thread];
        s := s.(users := s.users + 1, holders := s.holders + {c});
      } else {
        s := Session(next, 1, {c});
        next := next + 1;
      }
      sessions := sessions[thread := s];
      leases := leases[c := Leased(thread, s.adapter)];
      return Some(s.adapter);
    }

    method Release(c: Client, thread: Thread)
      requires Inv(State()) && c in leases && leases[c].Leased? && leases[c].thread == thread
      modifies this
      ensures State() == ReleaseStep(old(State()), c)
    {
      var s := sessions[thread];
      sessions := sessions[thread := s.(users := s.users - 1, holders := s.holders - {c})];
      leases := leases - {c};
    }

    /** Deletes while it iterates, and returns the adapters to close. */
    method ReapIdle(expired: set<Thread>, active: set<Adapter>) returns (idle: set<Adapter>)
      requires reaper == Reading
      modifies this
      ensures State() == ReapStep(old(State()), expired, active) && reaper == Reaping(idle)
    {
      idle := {};
      var left := sessions.Keys;
      ghost var before := sessions;
      while left != {}
        invariant left <= before.Keys
        invariant State() == old(State()).(sessions := sessions)
        invariant sessions == map t | t in before && (t in left || !Reapable(before[t], t, expired, active)) :: before[t]
        invariant idle == set t | t in before && t !in left && Reapable(before[t], t, expired, active) :: before[t].adapter
        decreases left
      {
        var id :| id in left;
        var s := sessions[id];
        if s.users == 0 && id in expired && s.adapter !in active {
          sessions := sessions - {id};
          idle := idle + {s.adapter};
        }
        left := left - {id};
      }
      assert sessions == map t | t in before && !Reapable(before[t], t, expired, active) :: before[t];
      assert idle == set t | t in before && Reapable(before[t], t, expired, active) :: before[t].adapter;
      reaper := Reaping(idle);
    }

    /** Refuses while any session has an active turn; otherwise returns the adapters to replace. */
    method Reconfigure(active: set<Adapter>) returns (adapters: Option<set<Adapter>>)
      requires writer == Locked
      modifies this
      ensures State() == WriterStep(old(State()), Step.Reconfigure(active))
      ensures adapters == if writer.Updating? then Some(writer.adapters) else None
    {
      if shut { return None; }
      var found: set<Adapter> := {};
      var left := sessions.Keys;
      while left != {}
        invariant left <= sessions.Keys && found !! active
        invariant found == set t | t in sessions && t !in left :: sessions[t].adapter
        decreases left
      {
        var id :| id in left;
        if sessions[id].adapter in active {
          assert sessions[id].adapter in Adapters(sessions) * active;
          return None;
        }
        found := found + {sessions[id].adapter};
        left := left - {id};
      }
      assert found == Adapters(sessions) && active * Adapters(sessions) == {};
      writer := Updating(found);
      return Some(found);
    }
  }
}
