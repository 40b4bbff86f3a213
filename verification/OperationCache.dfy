/** What pruning the in-memory cache of completed operations must achieve.
    The loops themselves are `AgentClient.Client.PruneCompletedOperations`. */
module OperationCache {
  import opened Options
  import opened Protocol

  const COMPLETED_OPERATION_LIMIT: nat := 128
  const COMPLETED_OPERATION_BYTE_LIMIT: nat := 16 * 1024 * 1024
  const COMPLETED_OPERATION_TTL: int := 3600 * 1000000000

  /** One record of the Agent's `seen` table.  `completedAt`, `result` and `size`
      mean something once `done` is closed; `size` is the length of data and message. */
  datatype Execution = Execution(
    op: OpId, kind: Kind, done: bool, result: OperationResult, size: nat, completedAt: int, persisted: bool)

  type Cache = map<OpId, Execution>

  ghost function Evictable(cache: Cache): set<OpId> {
    set id | id in cache && cache[id].done && cache[id].persisted
  }

  predicate Expired(e: Execution, now: int) {
    now - e.completedAt > COMPLETED_OPERATION_TTL
  }

  /** The completed, persisted and unexpired entries: the candidates to be kept. */
  ghost function Live(cache: Cache, now: int): set<OpId> {
    set id | id in cache && cache[id].done && cache[id].persisted && !Expired(cache[id], now)
  }

  ghost function Bytes(ids: set<OpId>, cache: Cache): nat
    requires ids <= cache.Keys
  {
    if ids == {} then 0 else var x :| x in ids; cache[x].size + Bytes(ids - {x}, cache)
  }

  lemma {:induction false} BytesRemove(ids: set<OpId>, cache: Cache, x: OpId)
    requires ids <= cache.Keys && x in ids
    ensures Bytes(ids, cache) == cache[x].size + Bytes(ids - {x}, cache)
  {
    var y :| y in ids && Bytes(ids, cache) == cache[y].size + Bytes(ids - {y}, cache);
    if y != x {
      BytesRemove(ids - {y}, cache, x);
      BytesRemove(ids - {x}, cache, y);
      assert ids - {y} - {x} == ids - {x} - {y};
    }
  }

  lemma {:induction false} BytesMonotone(small: set<OpId>, large: set<OpId>, cache: Cache)
    requires small <= large <= cache.Keys
    ensures Bytes(small, cache) <= Bytes(large, cache)
    decreases |large|
  {
    if small != {} {
      var x :| x in small;
      BytesRemove(small, cache, x);
      BytesRemove(large, cache, x);
      BytesMonotone(small - {x}, large - {x}, cache);
    }
  }

  /** No candidate outside `ids` is newer than a candidate inside. */
  ghost predicate NewestFirst(ids: set<OpId>, live: set<OpId>, cache: Cache)
    requires live <= cache.Keys && ids <= live
  {
    forall k, r | k in ids && r in live - ids :: cache[r].completedAt <= cache[k].completedAt
  }

  ghost predicate WithinLimits(ids: set<OpId>, cache: Cache)
    requires ids <= cache.Keys
  {
    |ids| <= COMPLETED_OPERATION_LIMIT && Bytes(ids, cache) <= COMPLETED_OPERATION_BYTE_LIMIT
  }

  ghost predicate NewestOf(e: OpId, ids: set<OpId>, cache: Cache)
    requires ids <= cache.Keys && e in cache
  {
    forall q | q in ids :: cache[q].completedAt <= cache[e].completedAt
  }

  /** Either nothing live was dropped, or the newest entry dropped would not have fitted. */
  ghost predicate Longest(kept: set<OpId>, live: set<OpId>, cache: Cache)
    requires live <= cache.Keys && kept <= live
  {
    kept == live ||
    exists e | e in live - kept :: NewestOf(e, live - kept, cache) && !WithinLimits(kept + {e}, cache)
  }

  /** `after` is a legal outcome of pruning `before` at time `now`. */
  ghost predicate Pruned(before: Cache, after: Cache, now: int) {
    && after.Keys <= before.Keys
    && (forall id | id in after :: after[id] == before[id])
    && before.Keys - after.Keys <= Evictable(before)
    && var kept := Evictable(after);
       && kept <= Live(before, now)
       && WithinLimits(kept, before)
       && NewestFirst(kept, Live(before, now), before)
       && Longest(kept, Live(before, now), before)
  }

  /** When completion times are distinct the kept set is the greatest newest-first
      set within both limits: any other such set is contained in it. */
  lemma KeptIsGreatest(before: Cache, after: Cache, now: int, other: set<OpId>)
    requires Pruned(before, after, now)
    requires other <= Live(before, now)
    requires NewestFirst(other, Live(before, now), before) && WithinLimits(other, before)
    requires forall i, j | i in Live(before, now) && j in Live(before, now) && i != j ::
               before[i].completedAt != before[j].completedAt
    ensures other <= Evictable(after)
  {
    var kept, live := Evictable(after), Live(before, now);
    if !(other <= kept) {
      var x :| x in other && x !in kept;
      assert x in live - kept;
      var e :| e in live - kept && NewestOf(e, live - kept, before) && !WithinLimits(kept + {e}, before);
      GreaterSetHoldsNewest(kept, live, before, other, x, e);
      CardinalityMonotone(kept + {e}, other);
      BytesMonotone(kept + {e}, other, before);
      assert false;
    }
  }

  lemma GreaterSetHoldsNewest(kept: set<OpId>, live: set<OpId>, cache: Cache, other: set<OpId>, x: OpId, e: OpId)
    requires kept <= live <= cache.Keys && other <= live
    requires NewestFirst(kept, live, cache) && NewestFirst(other, live, cache)
    requires x in other && x in live - kept && e in live - kept && NewestOf(e, live - kept, cache)
    requires forall i, j | i in live && j in live && i != j :: cache[i].completedAt != cache[j].completedAt
    ensures kept + {e} <= other
  {
    assert cache[x].completedAt <= cache[e].completedAt;
    assert e in other;
    forall k | k in kept ensures k in other {
      assert cache[e].completedAt <= cache[k].completedAt;
    }
  }

  lemma {:induction false} CardinalityMonotone(small: set<OpId>, large: set<OpId>)
    requires small <= large
    ensures |small| <= |large|
  {
    if small != {} {
      var x :| x in small;
      CardinalityMonotone(small - {x}, large - {x});
    }
  }

  predicate IsReceipted(e: Execution) { e.done && e.persisted }

  /** The completed entries of a cache that are no older than an hour. */
  ghost function Young(cache: Cache, now: int): set<OpId> {
    set id | id in cache && IsReceipted(cache[id]) && now - cache[id].completedAt <= 3_600_000_000_000
  }

  ghost function Receipted(cache: Cache): set<OpId> { set id | id in cache && IsReceipted(cache[id]) }

  /** What is left after pruning, with the limits written out: at most 128 completed entries of at most 16 MiB
      together, none older than an hour, and everything that is not completed. */
  lemma PruneKeepsExactly(before: Cache, after: Cache, now: int)
    requires Pruned(before, after, now)
    ensures Receipted(after) <= Young(before, now) <= before.Keys
    ensures |Receipted(after)| <= 128 && Bytes(Receipted(after), before) <= 16_777_216
    ensures forall id | id in before :: id in after <==> !IsReceipted(before[id]) || id in Receipted(after)
    ensures forall id | id in after :: id in before && after[id] == before[id]
  {
    assert Receipted(after) == Evictable(after) && Young(before, now) == Live(before, now);
    forall id | id in before && id !in after ensures IsReceipted(before[id]) {
      assert id in before.Keys - after.Keys;
    }
    hide Bytes;
  }

  /** None of the entries kept is older than a young one that was dropped, and if one was dropped, then the
      newest of those would not have fitted. */
  lemma PruneDropsOldest(before: Cache, after: Cache, now: int)
    requires Pruned(before, after, now)
    ensures Receipted(after) <= Young(before, now) <= before.Keys
    ensures forall k, r | k in Receipted(after) && r in Young(before, now) - Receipted(after) ::
      before[r].completedAt <= before[k].completedAt
    ensures Receipted(after) != Young(before, now) ==> exists e | e in Young(before, now) - Receipted(after) ::
      (|Receipted(after) + {e}| > 128 || Bytes(Receipted(after) + {e}, before) > 16_777_216)
      && forall r | r in Young(before, now) - Receipted(after) :: before[r].completedAt <= before[e].completedAt
  {
    assert Receipted(after) == Evictable(after) && Young(before, now) == Live(before, now);
    hide Bytes, Receipted, Young, Evictable, Live;
  }

  /** Pruning never drops an active or an unpersisted operation. */
  lemma PruneProtects(before: Cache, after: Cache, now: int, id: OpId)
    requires Pruned(before, after, now)
    requires id in before && (!before[id].done || !before[id].persisted)
    ensures id in after && after[id] == before[id]
  {
    assert id !in Evictable(before);
  }
}
