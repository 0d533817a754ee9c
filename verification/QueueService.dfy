/** `QueueService`: the scripts as they run, against the functions of `Queue`. A `Fault` argument says
    how the Redis call ends. */
module QueueServices {
  import opened Base
  import opened Lists
  import opened SortedSets
  import opened Queue

  /** The result of a call, or the `RedisError` it raised. */
  datatype Reply<+T> = Answer(value: T) | RedisError

  function Given<T>(f: Fault, value: T): Reply<T> { if f.Fine? then Answer(value) else RedisError }

  function After(f: Fault, before: Keys, after: Keys): Keys { if Applied(f) then after else before }

  /** `complete`: LREM and ZREM may raise, SREM is best effort. */
  function Completed(k: Keys, id: Id, lrem: Fault, zrem: Fault, srem: Fault): Keys {
    var k1 := After(lrem, k, Drop(k, id));
    if lrem.Fails? then k1 else
    var k2 := After(zrem, k1, Unwatch(k1, id));
    if zrem.Fails? then k2 else
    After(srem, k2, Unmark(k2, id))
  }

  /** `requeue_delayed`: the script may raise, the marker update is best effort and skipped when nothing moved. */
  function Postponed(k: Keys, id: Id, score: int, script: Fault, sadd: Fault): Keys {
    var k1 := After(script, k, ToDelayed(k, id, score));
    if script.Fails? || id !in k.processing then k1 else After(sadd, k1, Mark(k1, id))
  }

  function Requeued(k: Keys, id: Id, script: Fault, sadd: Fault): Keys {
    var k1 := After(script, k, ToQueue(k, id));
    if script.Fails? || id !in k.processing then k1 else After(sadd, k1, Mark(k1, id))
  }

  function Enqueued(k: Keys, id: Id, lpush: Fault, sadd: Fault): Keys {
    var k1 := After(lpush, k, Push(k, id));
    if lpush.Fails? then k1 else After(sadd, k1, Mark(k1, id))
  }

  /** The number of `ids` that a reaper pass moves. */
  function Moved(k: Keys, ids: seq<Id>): nat
    decreases |ids|
  {
    if ids == [] then 0
    else (if ids[0] in k.processing then 1 else 0) + Moved(ToQueue(k, ids[0]), ids[1..])
  }

  /** The members of `ids` that are in `s`, in the order of `ids`. */
  function Among(ids: seq<Id>, s: seq<Id>): seq<Id> {
    if ids == [] then [] else (if ids[0] in s then [ids[0]] else []) + Among(ids[1..], s)
  }

  lemma {:induction false} AmongSame(ids: seq<Id>, s: seq<Id>, t: seq<Id>)
    requires forall a :: a in ids ==> (a in s <==> a in t)
    ensures Among(ids, s) == Among(ids, t)
  {
    if ids != [] {
      assert ids[0] in ids;
      forall a | a in ids[1..] ensures a in s <==> a in t { assert a in ids; }
      AmongSame(ids[1..], s, t);
    }
  }

  /** Reaped copies are dequeued in the order of the batch, after everything that was queued before. */
  lemma {:induction false} ReapedLeaveLast(k: Keys, ids: seq<Id>)
    requires forall i, j :: 0 <= i < j < |ids| ==> ids[i] != ids[j]
    ensures DequeueOrder(ReapEach(k, ids).queue) == DequeueOrder(k.queue) + Among(ids, k.processing)
    decreases |ids|
  {
    if ids == [] {
      assert DequeueOrder(k.queue) + [] == DequeueOrder(k.queue);
    } else {
      var k1 := ToQueue(k, ids[0]);
      PushedLeavesLast(k.queue, ids[0]);
      ReapedLeaveLast(k1, ids[1..]);
      forall a | a in ids[1..] ensures a in k1.processing <==> a in k.processing {
        ToQueueCounts(k, ids[0], a);
        CountIn(k.processing, a);
        CountIn(k1.processing, a);
      }
      AmongSame(ids[1..], k1.processing, k.processing);
      var one: seq<Id> := if ids[0] in k.processing then [ids[0]] else [];
      assert DequeueOrder(k1.queue) == DequeueOrder(k.queue) + one;
      assert DequeueOrder(k.queue) + one + Among(ids[1..], k.processing)
          == DequeueOrder(k.queue) + (one + Among(ids[1..], k.processing));
    }
  }

  lemma {:induction false} ReapEachIgnoresVis(k: Keys, v: ZSet, ids: seq<Id>)
    ensures ReapEach(k.(vis := v), ids) == ReapEach(k, ids).(vis := v)
    decreases |ids|
  {
    if ids != [] {
      ReapEachIgnoresVis(ToQueue(k, ids[0]), v, ids[1..]);
      assert ToQueue(k.(vis := v), ids[0]) == ToQueue(k, ids[0]).(vis := v);
    }
  }

  class QueueService {
    var queue: seq<Id>
    var processing: seq<Id>
    var vis: ZSet
    var delayed: ZSet
    var dlq: seq<Id>
    var marked: set<Id>
    var dbErrors: map<Id, nat>

    function View(): Keys
      reads this
    {
      Keys(queue, processing, vis, delayed, dlq, marked, dbErrors)
    }

    method MarkQueued(id: Id, f: Fault)
      modifies this
      ensures View() == After(f, old(View()), Mark(old(View()), id))
      ensures marked == if Applied(f) then old(marked) + {id} else old(marked)
    {
      if Applied(f) { marked := marked + {id}; }
    }

    method ClearQueued(id: Id, f: Fault)
      modifies this
      ensures View() == After(f, old(View()), Unmark(old(View()), id))
      ensures marked == if Applied(f) then old(marked) - {id} else old(marked)
    {
      if Applied(f) { marked := marked - {id}; }
    }

    method IsQueued(id: Id, f: Fault) returns (r: Reply<bool>)
      ensures r == Given(f, id in marked)
      ensures f.Fine? ==> r == Answer(id in marked)
    {
      r := Given(f, id in marked);
    }

    /** The id is dequeued after everything that is queued now. */
    method Enqueue(id: Id, lpush: Fault, sadd: Fault) returns (ok: bool)
      modifies this
      ensures View() == Enqueued(old(View()), id, lpush, sadd)
      ensures ok <==> lpush.Fine? && sadd.Fine?
      ensures DequeueOrder(queue) == DequeueOrder(old(queue)) + (if Applied(lpush) then [id] else [])
      ensures marked == if lpush.Fine? && Applied(sadd) then old(marked) + {id} else old(marked)
    {
      PushedLeavesLast(queue, id);
      if Applied(lpush) { queue := LPush(queue, id); }
      if lpush.Fails? { return false; }
      if Applied(sadd) { marked := marked + {id}; }
      return sadd.Fine?;
    }

    method IncrementDbErrorCount(id: Id, f: Fault) returns (r: Reply<nat>)
      modifies this
      ensures View() == After(f, old(View()), CountError(old(View()), id))
      ensures r == Given(f, Get0(old(dbErrors), id) + 1)
      ensures Applied(f) ==> dbErrors == old(dbErrors)[id := Get0(old(dbErrors), id) + 1]
    {
      var count := Get0(dbErrors, id) + 1;
      if Applied(f) { dbErrors := dbErrors[id := count]; }
      r := Given(f, count);
    }

    method ClearDbErrorCount(id: Id, f: Fault) returns (ok: bool)
      modifies this
      ensures View() == After(f, old(View()), ClearErrors(old(View()), id))
      ensures ok <==> f.Fine?
      ensures Applied(f) ==> dbErrors == old(dbErrors) - {id}
    {
      if Applied(f) { dbErrors := dbErrors - {id}; }
      ok := f.Fine?;
    }

    /** The id is safe from the reaper for `timeout` seconds from `now`. */
    method RefreshProcessingVisibility(id: Id, now: int, timeout: nat, f: Fault) returns (ok: bool)
      modifies this
      ensures View() == After(f, old(View()), Watch(old(View()), id, now + timeout))
      ensures ok <==> f.Fine?
      ensures Applied(f) ==> vis == old(vis)[id := now + timeout]
    {
      var score := now + timeout;
      if Applied(f) { vis := vis[id := score]; }
      ok := f.Fine?;
    }

    /** `BLMOVE` with a timeout, then the visibility score. The id taken is the next in line. */
    method Dequeue(now: int, timeout: nat, blmove: Fault, zadd: Fault) returns (r: Reply<Option<Id>>)
      modifies this
      ensures old(queue) == [] ==> View() == old(View()) && r == Given(blmove, None)
      ensures old(queue) != [] ==>
                var k, id := old(View()), old(queue)[|old(queue)| - 1];
                var k1 := After(blmove, k, Take(k));
                && View() == (if blmove.Fails? then k1 else After(zadd, k1, Watch(k1, id, now + timeout)))
                && r == (if blmove.Fine? then Given(zadd, Some(id)) else RedisError)
      ensures old(queue) != [] && Applied(blmove) ==>
                var id := DequeueOrder(old(queue))[0];
                && DequeueOrder(old(queue)) == [id] + DequeueOrder(queue)
                && processing == [id] + old(processing)
                && (blmove.Fine? && Applied(zadd) ==> vis == old(vis)[id := now + timeout])
                && (blmove.Fine? && zadd.Fine? ==> r == Answer(Some(id)))
    {
      if queue == [] { return Given(blmove, None); }
      RightEndLeavesFirst(queue);
      var last := |queue| - 1;
      var id := queue[last];
      if Applied(blmove) {
        queue, processing := queue[..last], LPush(processing, id);
      }
      if blmove.Fails? { return RedisError; }
      var ok := RefreshProcessingVisibility(id, now, timeout, zadd);
      r := if ok then Answer(Some(id)) else RedisError;
    }

    method Complete(id: Id, lrem: Fault, zrem: Fault, srem: Fault) returns (ok: bool)
      modifies this
      ensures View() == Completed(old(View()), id, lrem, zrem, srem)
      ensures ok <==> lrem.Fine? && zrem.Fine?
      ensures queue == old(queue) && delayed == old(delayed) && dlq == old(dlq)
      ensures Applied(lrem) ==> Count(processing, id) == Max(Count(old(processing), id) - 1, 0)
      ensures ok ==> id !in vis
      ensures marked == if ok && Applied(srem) then old(marked) - {id} else old(marked)
    {
      CountLRem1(processing, id, id);
      CountIn(processing, id);
      if Applied(lrem) { processing := LRem1(processing, id); }
      if lrem.Fails? { return false; }
      if Applied(zrem) { vis := ZRem(vis, [id]); }
      if zrem.Fails? { return false; }
      ClearQueued(id, srem);
      ok := true;
    }

    method MoveToDlq(id: Id, script: Fault) returns (r: Reply<nat>)
      modifies this
      ensures View() == After(script, old(View()), ToDlq(old(View()), id))
      ensures r == Given(script, if id in old(processing) then 1 else 0)
      ensures dlq == if Applied(script) && id in old(processing) then [id] + old(dlq) else old(dlq)
      ensures Applied(script) ==> Count(processing, id) == Max(Count(old(processing), id) - 1, 0)
    {
      CountLRem1(processing, id, id);
      CountIn(processing, id);
      var removed := 0;
      if Applied(script) && id in processing {
        processing := LRem1(processing, id);
        dlq := LPush(dlq, id);
        removed := 1;
      }
      r := Given(script, removed);
    }

    /** A copy that is put back is dequeued after everything that is queued now. */
    method Requeue(id: Id, script: Fault, sadd: Fault) returns (ok: bool)
      modifies this
      ensures View() == Requeued(old(View()), id, script, sadd)
      ensures ok <==> script.Fine?
      ensures DequeueOrder(queue)
              == DequeueOrder(old(queue)) + (if Applied(script) && id in old(processing) then [id] else [])
      ensures Applied(script) ==> Count(processing, id) == Max(Count(old(processing), id) - 1, 0)
      ensures marked == if ok && id in old(processing) && Applied(sadd) then old(marked) + {id} else old(marked)
    {
      PushedLeavesLast(queue, id);
      CountLRem1(processing, id, id);
      CountIn(processing, id);
      var removed := id in processing;
      if Applied(script) && removed {
        processing := LRem1(processing, id);
        queue := LPush(queue, id);
      }
      if script.Fails? { return false; }
      if removed { MarkQueued(id, sadd); }
      ok := true;
    }

    /** A copy that is delayed becomes ready `delay` seconds from `now`, whatever it was delayed to before. */
    method RequeueDelayed(id: Id, now: int, delay: nat, script: Fault, sadd: Fault) returns (ok: bool)
      modifies this
      ensures View() == Postponed(old(View()), id, now + delay, script, sadd)
      ensures ok <==> script.Fine?
      ensures delayed
              == if Applied(script) && id in old(processing) then old(delayed)[id := now + delay] else old(delayed)
      ensures Applied(script) ==> Count(processing, id) == Max(Count(old(processing), id) - 1, 0)
      ensures marked == if ok && id in old(processing) && Applied(sadd) then old(marked) + {id} else old(marked)
    {
      CountLRem1(processing, id, id);
      CountIn(processing, id);
      var score := now + delay;
      var removed := id in processing;
      if Applied(script) && removed {
        processing := LRem1(processing, id);
        delayed := delayed[id := score];
      }
      if script.Fails? { return false; }
      if removed { MarkQueued(id, sadd); }
      ok := true;
    }

    /** The reaper script. */
    method ReapProcessing(now: int, batch: nat, script: Fault) returns (r: Reply<nat>)
      modifies this
      ensures View() == After(script, old(View()), Reap(old(View()), now, batch))
      ensures r == Given(script, Moved(old(View()), ZRange(old(vis), now, batch)))
      ensures Applied(script) ==>
                DequeueOrder(queue) == DequeueOrder(old(queue)) + Among(ZRange(old(vis), now, batch), old(processing))
    {
      ZRangeDistinct(vis, now, batch);
      ReapedLeaveLast(View(), ZRange(vis, now, batch));
      ReapEachIgnoresVis(View(), ZRem(vis, ZRange(vis, now, batch)), ZRange(vis, now, batch));
      if !Applied(script) { return RedisError; }
      var expired := ZRange(vis, now, batch);
      vis := ZRem(vis, expired);
      var moved := 0;
      var i := 0;
      ghost var start := View();
      MovedFrame(old(View()), start, expired);
      while i < |expired|
        invariant 0 <= i <= |expired|
        invariant ReapEach(start, expired) == ReapEach(View(), expired[i..])
        invariant Moved(start, expired) == moved + Moved(View(), expired[i..])
      {
        ghost var k := View();
        var id := expired[i];
        assert expired[i..][0] == id && expired[i..][1..] == expired[i + 1..];
        if id in processing {
          processing := LRem1(processing, id);
          queue := LPush(queue, id);
          moved := moved + 1;
        }
        assert View() == ToQueue(k, id);
        i := i + 1;
      }
      r := Given(script, moved);
    }

    /** The delayed mover script. */
    method MoveReadyDelayed(now: int, batch: nat, script: Fault) returns (r: Reply<nat>)
      modifies this
      ensures View() == After(script, old(View()), MoveReady(old(View()), now, batch))
      ensures r == Given(script, |ZRange(old(delayed), now, batch)|)
      ensures Applied(script) ==> DequeueOrder(queue) == DequeueOrder(old(queue)) + ZRange(old(delayed), now, batch)
    {
      PushedLeaveLast(queue, ZRange(delayed, now, batch));
      if !Applied(script) { return RedisError; }
      var ready := ZRange(delayed, now, batch);
      delayed := ZRem(delayed, ready);
      var i := 0;
      while i < |ready|
        invariant 0 <= i <= |ready|
        invariant PushAll(queue, ready[i..]) == PushAll(old(queue), ready)
        invariant View() == old(View()).(delayed := ZRem(old(delayed), ready), queue := queue)
      {
        assert ready[i..][0] == ready[i] && ready[i..][1..] == ready[i + 1..];
        queue := LPush(queue, ready[i]);
        i := i + 1;
      }
      r := Given(script, |ready|);
    }
  }

  /** The visibility set plays no part in moving ids. */
  lemma {:induction false} MovedFrame(k: Keys, k': Keys, ids: seq<Id>)
    requires k' == k.(vis := k'.vis)
    ensures Moved(k, ids) == Moved(k', ids)
    decreases |ids|
  {
    if ids != [] {
      MovedFrame(ToQueue(k, ids[0]), ToQueue(k', ids[0]), ids[1..]);
    }
  }
}
