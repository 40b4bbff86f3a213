/** The critical sections of the Agent's operation engine in the form the program has
    them: methods that update the client's table, disk and flag in place.  Each one is
    proved to do exactly what the section of `OperationEngine` with its name does. */
module AgentClient {
  import opened Options
  import opened Protocol
  import opened OperationCache
  import opened OperationEngine
  import Text

  class Client {
    var heap: seq<Execution>
    var seen: map<OpId, nat>
    var disk: map<OpId, Receipt>
    var updatePending: bool
    var sent: set<Message>

    function State(): Core
      reads this
    {
      Core(heap, seen, disk, updatePending, sent)
    }

    ghost predicate Valid()
      reads this
    {
      forall id | id in seen :: seen[id] < |heap|
    }

    constructor (receipts: map<OpId, Receipt>)
      ensures Valid() && State() == Core([], map[], receipts, false, {})
    {
      heap, seen, disk, updatePending, sent := [], map[], receipts, false, {};
    }

    /** First drop the expired entries, then the oldest ones while a limit is exceeded. */
    method PruneCompletedOperations(now: int) returns (ghost evict: set<OpId>)
      requires Valid()
      modifies this`seen
      ensures Valid() && seen == old(seen) - evict && MayEvict(old(State()), evict)
      ensures Pruned(old(View(State())), View(State()), now)
    {
      ghost var cache := View(State());
      ghost var live := Live(cache, now);
      ghost var expired := Evictable(cache) - live;
      var count, bytes := DropExpired(cache, live, expired, now);
      ghost var kept := DropOldestWhileOver(cache, live, count, bytes);
      evict := expired + (live - kept);
      Difference(seen, old(seen), evict);
      PruneOutcome(cache, View(State()), now, live, kept, evict);
    }

    /** Pruning as its callers use it: some completed and persisted entries are gone. */
    method Prune(now: int) returns (ghost evict: set<OpId>)
      requires Valid()
      modifies this`seen
      ensures Valid() && State() == Evict(old(State()), evict) && MayEvict(old(State()), evict)
    {
      evict := PruneCompletedOperations(now);
    }

    /** The table still agrees with `cache`, of which it holds a part. */
    ghost predicate PartOf(cache: Cache)
      reads this
    {
      Valid() && forall id | id in seen :: id in cache && heap[seen[id]] == cache[id]
    }

    /** The first pass counts the live entries and deletes the stale ones. */
    method DropExpired(ghost cache: Cache, ghost live: set<OpId>, ghost stale: set<OpId>, now: int) returns (count: int, bytes: int)
      requires PartOf(cache) && live <= cache.Keys && stale <= cache.Keys
      requires forall id | id in seen :: id in live <==> cache[id].done && cache[id].persisted && !Expired(cache[id], now)
      requires forall id | id in seen :: id in stale <==> cache[id].done && cache[id].persisted && Expired(cache[id], now)
      requires live <= seen.Keys && stale <= seen.Keys
      modifies this`seen
      ensures Without(seen, old(seen), stale)
      ensures count == |live| && bytes == Bytes(live, cache)
    {
      ghost var counted: set<OpId>, expired: set<OpId> := {}, {};
      count, bytes := 0, 0;
      var todo := seen.Keys;
      while todo != {}
        invariant todo <= seen.Keys && Without(seen, old(seen), expired)
        invariant forall id | id in expired :: id in stale
        invariant forall id | id in stale :: id in expired || id in todo
        invariant forall id | id in counted :: id in live && id !in todo
        invariant forall id | id in live :: id in counted || id in todo
        invariant count == |counted| && bytes == Bytes(counted, cache)
        decreases |todo|
      {
        var id :| id in todo;
        todo := todo - {id};
        var e := heap[seen[id]];
        if !e.done || !e.persisted { continue; }
        if Expired(e, now) {
          seen := seen - {id};
          expired := expired + {id};
          continue;
        }
        count := count + 1;
        bytes := bytes + e.size;
        BytesAdd(counted, cache, id);
        counted := counted + {id};
      }
      assert counted == live && expired == stale;
    }

    /** The second pass.  `count` and `bytes` stay the true totals, so an entry to drop
        always exists: the program's break for an empty `oldestID` is never taken. */
    method DropOldestWhileOver(ghost cache: Cache, ghost live: set<OpId>, count0: int, bytes0: int) returns (ghost kept: set<OpId>)
      requires PartOf(cache) && live <= seen.Keys
      requires forall id | id in seen :: id in live <==> cache[id].done && cache[id].persisted
      requires count0 == |live| && bytes0 == Bytes(live, cache)
      modifies this`seen
      ensures PartOf(cache) && kept <= live && Without(seen, old(seen), live - kept)
      ensures Trimmed(kept, live, cache)
    {
      var count, bytes := count0, bytes0;
      kept := live;
      while count > COMPLETED_OPERATION_LIMIT || bytes > COMPLETED_OPERATION_BYTE_LIMIT
        invariant kept <= live && PartOf(cache) && Without(seen, old(seen), live - kept)
        invariant kept <= seen.Keys && forall id | id in seen :: id in kept <==> cache[id].done && cache[id].persisted
        invariant count == |kept| && bytes == Bytes(kept, cache)
        invariant Trimming(kept, live, cache)
        decreases |kept|
      {
        ghost var was := seen;
        var oldest, size := DropOne(cache, live, kept);
        bytes := bytes - size;
        count := count - 1;
        WithoutOneMore(seen, was, old(seen), live, kept, oldest);
        kept := kept - {oldest};
      }
    }

    /** One round of the second pass: find the oldest entry and delete it. */
    method DropOne(ghost cache: Cache, ghost live: set<OpId>, ghost kept: set<OpId>) returns (oldest: OpId, size: nat)
      requires PartOf(cache) && kept <= seen.Keys
      requires forall id | id in seen :: id in kept <==> cache[id].done && cache[id].persisted
      requires Trimming(kept, live, cache) && !WithinLimits(kept, cache)
      modifies this`seen
      ensures oldest in kept && seen == old(seen) - {oldest} && size == cache[oldest].size
      ensures Bytes(kept, cache) == size + Bytes(kept - {oldest}, cache)
      ensures Trimming(kept - {oldest}, live, cache)
    {
      ghost var some := NonEmpty(kept, cache);
      oldest := Oldest();
      BytesRemove(kept, cache, oldest);
      DropOldest(kept, live, cache, oldest);
      size := heap[seen[oldest]].size;
      seen := seen - {oldest};
    }

    /** The scan for the oldest completed and persisted entry. */
    method Oldest() returns (oldestID: OpId)
      requires Valid()
      requires exists id :: id in seen && heap[seen[id]].done && heap[seen[id]].persisted
      ensures oldestID in seen && heap[seen[oldestID]].done && heap[seen[oldestID]].persisted
      ensures forall id | id in seen && heap[seen[id]].done && heap[seen[id]].persisted ::
                heap[seen[oldestID]].completedAt <= heap[seen[id]].completedAt
    {
      var found := false;
      oldestID := "";
      var todo := seen.Keys;
      while todo != {}
        invariant todo <= seen.Keys
        invariant found ==> oldestID in seen && heap[seen[oldestID]].done && heap[seen[oldestID]].persisted
        invariant forall id | id in seen.Keys - todo && heap[seen[id]].done && heap[seen[id]].persisted ::
                    found && heap[seen[oldestID]].completedAt <= heap[seen[id]].completedAt
        decreases |todo|
      {
        var id :| id in todo;
        todo := todo - {id};
        var e := heap[seen[id]];
        if e.persisted && e.done && (!found || e.completedAt < heap[seen[oldestID]].completedAt) {
          found, oldestID := true, id;
        }
      }
    }

    /** The section at the start of `handleOperation`: prune, look up, replay or register. */
    method LookupOrRegister(env: Envelope, now: int, readable: bool) returns (phase: Phase, ghost evict: set<OpId>)
      requires Valid()
      modifies this
      ensures Valid() && MayEvict(old(State()), evict)
      ensures (State(), phase) == LookupSection(old(State()), env, evict, readable)
    {
      evict := Prune(now);
      if env.op in seen {
        return AwaitingDuplicate(seen[env.op]), evict;
      }
      var loaded := LoadOperationResult(env.op, readable);
      match loaded {
        case Found(r) => phase := Replaying(r);
        case Unreadable => phase := Replaying(Failure(env.op));
        case Missing =>
          phase := Registered(|heap|);
          seen := seen[env.op := |heap|];
          heap := heap + [NewExecution(env)];
          sent := sent + {Started(env.op)};
      }
    }

    method LoadOperationResult(op: OpId, readable: bool) returns (loaded: Loaded)
      ensures loaded == Load(disk, op, readable)
    {
      if !readable { return Unreadable; }
      if op !in disk { return Missing; }
      match disk[op] {
        case Corrupt => return Unreadable;
        case Readable(r) =>
          if r.op != op { return Unreadable; }
          return Found(r);
      }
    }

    method SaveOperationResult(result: OperationResult, saves: bool) returns (saved: bool)
      modifies this`disk
      ensures saved == saves && disk == (if saves then old(disk)[result.op := Readable(result)] else old(disk))
    {
      if saves { disk := disk[result.op := Readable(result)]; }
      saved := saves;
    }

    method Queue(m: Message, queues: bool) returns (queued: bool)
      modifies this`sent
      ensures queued == queues && sent == (if queues then old(sent) + {m} else old(sent))
    {
      if queues { sent := sent + {m}; }
      queued := queues;
    }

    /** `interruptOperation` up to the point where it waits for a running target. */
    method InterruptOperation(env: Envelope, readable: bool, saves: bool, queues: bool, now: int) returns (answer: InterruptOutcome)
      requires Valid()
      modifies this
      ensures Valid() && (State(), answer) == InterruptSection(old(State()), env, readable, saves, queues, now)
    {
      if env.payload.Malformed? || Text.IsBlank(env.payload.target) || !CanInterruptOperation(env.payload.targetKind) {
        return Refused;
      }
      var target := env.payload.target;
      if target in seen {
        if heap[seen[target]].kind != env.payload.targetKind { return Refused; }
        return Wait(seen[target]);
      }
      var loaded := LoadOperationResult(target, readable);
      if loaded.Unreadable? { return Refused; }
      var receipt := Tombstone(target);
      if loaded.Found? {
        receipt := loaded.result;
      } else {
        // Written under the lock that registers executions: a delayed command cannot slip in.
        var saved := SaveOperationResult(receipt, saves);
        if !saved { return Refused; }
        seen := seen[target := |heap|];
        heap := heap + [Execution(target, env.payload.targetKind, true, receipt, 0, now, true)];
      }
      var queued := Queue(Completed(receipt), queues);
      answer := if queued then Confirmed else Refused;
    }

    /** The scan of `stageAgentUpdate` and the setting of the pending flag. */
    method ReserveAgentUpdate(env: Envelope, exec: nat) returns (phase: Phase)
      requires Valid()
      modifies this`updatePending
      ensures (State(), phase) == StageScanSection(old(State()), env, exec)
    {
      if updatePending { return Finished(exec, Failure(env.op), false); }
      var todo := seen.Keys;
      while todo != {}
        invariant todo <= seen.Keys && State() == old(State())
        invariant forall id | id in seen.Keys - todo :: !(Scanned(heap[seen[id]].kind) && !heap[seen[id]].done)
        decreases |todo|
      {
        var id :| id in todo;
        todo := todo - {id};
        if !Scanned(heap[seen[id]].kind) { continue; }
        if !heap[seen[id]].done { return Finished(exec, Failure(env.op), false); }
      }
      assert !ScanFindsActive(State());
      updatePending := true;
      phase := Staging(exec);
    }

    method ReleaseAgentUpdate()
      modifies this`updatePending
      ensures !updatePending
    {
      updatePending := false;
    }

    /** Publish a result: store it, close `done`, prune. */
    method Publish(exec: nat, result: OperationResult, staged: bool, onDisk: bool, now: int, size: nat)
      returns (phase: Phase, ghost evict: set<OpId>)
      requires Valid() && exec < |heap|
      modifies this`heap, this`seen
      ensures Valid()
      ensures MayEvict(PublishSection(old(State()), exec, result, staged, onDisk, now, size, {}).0, evict)
      ensures (State(), phase) == PublishSection(old(State()), exec, result, staged, onDisk, now, size, evict)
    {
      heap := heap[exec := Execution(heap[exec].op, heap[exec].kind, true, result, size, now, onDisk)];
      ghost var published := State();
      evict := Prune(now);
      assert Evict(published, {}) == published;
      phase := Published(exec, result, staged);
    }

    /** One keepalive names many operations; they are answered one lock section each. */
    method ReconcileOperations(ids: seq<OpId>, readable: seq<bool>)
      requires Valid() && |ids| == |readable|
      modifies this`sent
      ensures State() == ProbeAll(old(State()), ids, readable) && old(sent) <= sent
      ensures forall k | 0 <= k < |ids| && ids[k] in seen ::
        (if heap[seen[ids[k]]].done then Completed(heap[seen[ids[k]]].result) else OwnedActive(ids[k])) in sent
      ensures forall k | 0 <= k < |ids| && ids[k] !in seen && readable[k] && ids[k] !in disk :: OwnedLost(ids[k]) in sent
      ensures forall id | OwnedActive(id) in sent - old(sent) :: id in seen && !heap[seen[id]].done
      ensures forall id | OwnedLost(id) in sent - old(sent) :: id !in seen && id !in disk
    {
      ProbeAllReplies(State(), ids, readable);
      assert ids[..0] == [] && readable[..0] == [];
      for k := 0 to |ids|
        invariant State() == ProbeAll(old(State()), ids[..k], readable[..k])
        invariant heap == old(heap) && seen == old(seen)
      {
        var before := State();
        var id := ids[k];
        if id in seen {
          var e := heap[seen[id]];
          sent := sent + {if e.done then Completed(e.result) else OwnedActive(id)};
        } else {
          var loaded := LoadOperationResult(id, readable[k]);
          match loaded {
            case Unreadable =>
            case Found(r) => sent := sent + {Completed(r)};
            case Missing => sent := sent + {OwnedLost(id)};
          }
        }
        assert State() == ProbeSection(before, id, readable[k]);
        assert ids[..k + 1][..k] == ids[..k] && readable[..k + 1][..k] == readable[..k];
      }
      assert ids[..|ids|] == ids && readable[..|ids|] == readable;
    }
  }

  function ProbeAll(core: Core, ids: seq<OpId>, readable: seq<bool>): Core
    requires |ids| == |readable|
  {
    if ids == [] then core
    else ProbeSection(ProbeAll(core, ids[..|ids| - 1], readable[..|ids| - 1]), ids[|ids| - 1], readable[|ids| - 1])
  }

  /** Every probed operation is answered, and by its own state. */
  lemma {:induction false} ProbeAllReplies(core: Core, ids: seq<OpId>, readable: seq<bool>)
    requires |ids| == |readable| && forall id | id in core.seen :: core.seen[id] < |core.heap|
    ensures var c := ProbeAll(core, ids, readable);
      && c == core.(sent := c.sent) && core.sent <= c.sent
      && (forall k | 0 <= k < |ids| && ids[k] in core.seen ::
            (if core.heap[core.seen[ids[k]]].done then Completed(core.heap[core.seen[ids[k]]].result)
             else OwnedActive(ids[k])) in c.sent)
      && (forall k | 0 <= k < |ids| && ids[k] !in core.seen && readable[k] && ids[k] !in core.disk ::
            OwnedLost(ids[k]) in c.sent)
      && (forall id | OwnedActive(id) in c.sent - core.sent :: id in core.seen && !core.heap[core.seen[id]].done)
      && (forall id | OwnedLost(id) in c.sent - core.sent :: id !in core.seen && id !in core.disk)
  {
    if ids != [] {
      var n := |ids| - 1;
      ProbeAllReplies(core, ids[..n], readable[..n]);
      var before, c := ProbeAll(core, ids[..n], readable[..n]), ProbeAll(core, ids, readable);
      assert c == ProbeSection(before, ids[n], readable[n]);
      forall k | 0 <= k < n ensures ids[..n][k] == ids[k] && readable[..n][k] == readable[k] {}
    }
  }

  ghost predicate Without(after: map<OpId, nat>, before: map<OpId, nat>, gone: set<OpId>) {
    && (forall id | id in after :: id in before && after[id] == before[id] && id !in gone)
    && (forall id | id in before :: id in after || id in gone)
  }

  lemma Difference(after: map<OpId, nat>, before: map<OpId, nat>, gone: set<OpId>)
    requires Without(after, before, gone)
    ensures after == before - gone
  {
  }

  lemma WithoutOneMore(after: map<OpId, nat>, was: map<OpId, nat>, before: map<OpId, nat>, live: set<OpId>, kept: set<OpId>, x: OpId)
    requires x in kept && kept <= live && Without(was, before, live - kept) && after == was - {x}
    ensures Without(after, before, live - (kept - {x}))
  {
  }

  ghost predicate Trimming(kept: set<OpId>, live: set<OpId>, cache: Cache) {
    kept <= live <= cache.Keys && NewestFirst(kept, live, cache) && Longest(kept, live, cache)
  }

  ghost predicate Trimmed(kept: set<OpId>, live: set<OpId>, cache: Cache) {
    Trimming(kept, live, cache) && WithinLimits(kept, cache)
  }

  lemma DropOldest(kept: set<OpId>, live: set<OpId>, cache: Cache, oldest: OpId)
    requires Trimming(kept, live, cache) && oldest in kept && !WithinLimits(kept, cache)
    requires forall r | r in kept :: cache[oldest].completedAt <= cache[r].completedAt
    ensures Trimming(kept - {oldest}, live, cache)
  {
    assert kept - {oldest} + {oldest} == kept;
    assert oldest in live - (kept - {oldest});
    assert NewestOf(oldest, live - (kept - {oldest}), cache);
  }

  lemma BytesAdd(ids: set<OpId>, cache: Cache, id: OpId)
    requires ids <= cache.Keys && id in cache && id !in ids
    ensures |ids + {id}| == |ids| + 1 && Bytes(ids + {id}, cache) == Bytes(ids, cache) + cache[id].size
  {
    BytesRemove(ids + {id}, cache, id);
    assert ids + {id} - {id} == ids;
  }

  /** Totals above a limit belong to a non-empty set. */
  lemma NonEmpty(ids: set<OpId>, cache: Cache) returns (some: OpId)
    requires ids <= cache.Keys && !WithinLimits(ids, cache)
    ensures some in ids
  {
    assert ids != {};
    some :| some in ids;
  }

  lemma PruneOutcome(before: Cache, after: Cache, now: int, live: set<OpId>, kept: set<OpId>, evict: set<OpId>)
    requires after == before - evict && live == Live(before, now)
    requires evict <= before.Keys && forall id | id in before :: id in evict <==> id in Evictable(before) - kept
    requires Trimmed(kept, live, before)
    ensures Pruned(before, after, now)
  {
    assert Evictable(after) == kept;
  }
}
