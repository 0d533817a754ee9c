/** The Redis queue keys, the Lua scripts as functions on them, and `QueueService`, which runs them. */
module Queue {
  import opened Base
  import opened Lists
  import opened SortedSets

  datatype Keys = Keys(
    queue: seq<Id>,            // email:queue
    processing: seq<Id>,       // email:processing
    vis: ZSet,                 // email:processing:vis
    delayed: ZSet,             // email:delayed
    dlq: seq<Id>,              // email:dlq, by the id of each item
    marked: set<Id>,           // email:queued:set
    dbErrors: map<Id, nat>     // email:db-error:<id>
  )

  // ----- single commands and scripts -----

  function Push(k: Keys, id: Id): Keys { k.(queue := LPush(k.queue, id)) }

  function Mark(k: Keys, id: Id): Keys { k.(marked := k.marked + {id}) }

  function Unmark(k: Keys, id: Id): Keys { k.(marked := k.marked - {id}) }

  /** `BLMOVE email:queue email:processing RIGHT LEFT`. */
  function Take(k: Keys): Keys
    requires k.queue != []
  {
    var last := |k.queue| - 1;
    k.(queue := k.queue[..last], processing := LPush(k.processing, k.queue[last]))
  }

  function Watch(k: Keys, id: Id, score: int): Keys { k.(vis := k.vis[id := score]) }

  function Drop(k: Keys, id: Id): Keys { k.(processing := LRem1(k.processing, id)) }

  function Unwatch(k: Keys, id: Id): Keys { k.(vis := ZRem(k.vis, [id])) }

  function CountError(k: Keys, id: Id): Keys { k.(dbErrors := k.dbErrors[id := Get0(k.dbErrors, id) + 1]) }

  function ClearErrors(k: Keys, id: Id): Keys { k.(dbErrors := k.dbErrors - {id}) }

  function ToDlq(k: Keys, id: Id): Keys {
    if id in k.processing then Drop(k, id).(dlq := LPush(k.dlq, id)) else k
  }

  function ToQueue(k: Keys, id: Id): Keys {
    if id in k.processing then Push(Drop(k, id), id) else k
  }

  function ToDelayed(k: Keys, id: Id, score: int): Keys {
    if id in k.processing then Drop(k, id).(delayed := k.delayed[id := score]) else k
  }

  function ReapEach(k: Keys, ids: seq<Id>): Keys
    decreases |ids|
  {
    if ids == [] then k else ReapEach(ToQueue(k, ids[0]), ids[1..])
  }

  function Reap(k: Keys, now: int, batch: nat): Keys {
    var expired := ZRange(k.vis, now, batch);
    ReapEach(k.(vis := ZRem(k.vis, expired)), expired)
  }

  function MoveReady(k: Keys, now: int, batch: nat): Keys {
    var ready := ZRange(k.delayed, now, batch);
    k.(delayed := ZRem(k.delayed, ready), queue := PushAll(k.queue, ready))
  }

  // ----- the copies of one id -----

  function Delayed01(k: Keys, x: Id): nat { if x in k.delayed then 1 else 0 }

  /** The copies of `x` that some consumer can still reach, and its dead letters. */
  function Copies(k: Keys, x: Id): nat {
    Count(k.queue, x) + Count(k.processing, x) + Delayed01(k, x) + Count(k.dlq, x)
  }

  predicate Present(k: Keys, x: Id) { Copies(k, x) > 0 }

  lemma TakeCounts(k: Keys, x: Id)
    requires k.queue != []
    ensures var id := k.queue[|k.queue| - 1]; var one := if x == id then 1 else 0; var k' := Take(k);
            && Count(k'.queue, x) == Count(k.queue, x) - one
            && Count(k'.processing, x) == Count(k.processing, x) + one
            && Copies(k', x) == Copies(k, x)
  {
    CountLast(k.queue, x);
    CountLPush(k.processing, k.queue[|k.queue| - 1], x);
  }

  lemma PushCounts(k: Keys, id: Id, x: Id)
    ensures Count(Push(k, id).queue, x) == Count(k.queue, x) + (if x == id then 1 else 0)
  {
    CountLPush(k.queue, id, x);
  }

  lemma DropCounts(k: Keys, id: Id, x: Id)
    ensures var one := if x == id && Count(k.processing, id) > 0 then 1 else 0;
            && Count(Drop(k, id).processing, x) == Count(k.processing, x) - one
            && Copies(Drop(k, id), x) == Copies(k, x) - one
  {
    CountLRem1(k.processing, id, x);
    CountIn(k.processing, id);
  }

  /** A dead letter keeps the number of copies. */
  lemma ToDlqCounts(k: Keys, id: Id, x: Id)
    ensures var one := if x == id && Count(k.processing, id) > 0 then 1 else 0; var k' := ToDlq(k, id);
            && Count(k'.processing, x) == Count(k.processing, x) - one
            && Count(k'.dlq, x) == Count(k.dlq, x) + one
            && Copies(k', x) == Copies(k, x)
  {
    CountLRem1(k.processing, id, x);
    CountIn(k.processing, id);
    CountLPush(k.dlq, id, x);
  }

  lemma ToQueueCounts(k: Keys, id: Id, x: Id)
    ensures var one := if x == id && Count(k.processing, id) > 0 then 1 else 0; var k' := ToQueue(k, id);
            && Count(k'.processing, x) == Count(k.processing, x) - one
            && Count(k'.queue, x) == Count(k.queue, x) + one
            && Copies(k', x) == Copies(k, x)
  {
    CountLRem1(k.processing, id, x);
    CountIn(k.processing, id);
    CountLPush(k.queue, id, x);
  }

  /** True when delaying `id` overwrites a score and so merges two copies into one. */
  predicate Collapses(k: Keys, id: Id) { Count(k.processing, id) > 0 && id in k.delayed }

  lemma ToDelayedCounts(k: Keys, id: Id, score: int, x: Id)
    ensures var one := if x == id && Count(k.processing, id) > 0 then 1 else 0; var k' := ToDelayed(k, id, score);
            && Count(k'.processing, x) == Count(k.processing, x) - one
            && (x in k'.delayed <==> x in k.delayed || one == 1)
            && (x in k'.delayed ==> k'.delayed[x] == if one == 1 then score else k.delayed[x])
            && Copies(k', x) == Copies(k, x) - (if x == id && Collapses(k, id) then 1 else 0)
  {
    CountLRem1(k.processing, id, x);
    CountIn(k.processing, id);
  }

  lemma {:induction false} ReapEachCounts(k: Keys, ids: seq<Id>, x: Id)
    requires forall i, j :: 0 <= i < j < |ids| ==> ids[i] != ids[j]
    ensures var one := if x in ids && Count(k.processing, x) > 0 then 1 else 0; var k' := ReapEach(k, ids);
            && k' == k.(queue := k'.queue, processing := k'.processing)
            && Count(k'.processing, x) == Count(k.processing, x) - one
            && Count(k'.queue, x) == Count(k.queue, x) + one
            && Copies(k', x) == Copies(k, x)
    decreases |ids|
  {
    if ids != [] {
      ToQueueCounts(k, ids[0], x);
      ReapEachCounts(ToQueue(k, ids[0]), ids[1..], x);
    }
  }

  lemma ZRangeDistinct(z: ZSet, now: int, batch: nat)
    ensures var r := ZRange(z, now, batch);
            && (forall i, j :: 0 <= i < j < |r| ==> r[i] != r[j])
            && (forall a :: a in r ==> a in z && 0 <= z[a] <= now)
  {
    var all := Sorted(z, Due(z, now));
    SortedIsSorted(z, Due(z, now));
    forall a | a in ZRange(z, now, batch) ensures a in z && 0 <= z[a] <= now {
      assert a in Members(all);
    }
  }

  /** A reaper pass moves one copy of each expired id that is still in processing. */
  lemma ReapCounts(k: Keys, now: int, batch: nat, x: Id)
    ensures var k' := Reap(k, now, batch);
            var one := if x in ZRange(k.vis, now, batch) && Count(k.processing, x) > 0 then 1 else 0;
            && k' == k.(vis := k'.vis, queue := k'.queue, processing := k'.processing)
            && Count(k'.processing, x) == Count(k.processing, x) - one
            && Count(k'.queue, x) == Count(k.queue, x) + one
            && Copies(k', x) == Copies(k, x)
  {
    var expired := ZRange(k.vis, now, batch);
    ZRangeDistinct(k.vis, now, batch);
    ReapEachCounts(k.(vis := ZRem(k.vis, expired)), expired, x);
  }

  lemma {:induction false} CountDistinct(s: seq<Id>, x: Id)
    requires forall i, j :: 0 <= i < j < |s| ==> s[i] != s[j]
    ensures Count(s, x) == if x in s then 1 else 0
  {
    if s != [] {
      CountDistinct(s[1..], x);
      assert s == [s[0]] + s[1..];
    }
  }

  /** A mover pass moves ready ids only, and keeps every copy. */
  lemma MoveReadyCounts(k: Keys, now: int, batch: nat, x: Id)
    ensures var k' := MoveReady(k, now, batch);
            var one := if x in ZRange(k.delayed, now, batch) then 1 else 0;
            && k' == k.(delayed := k'.delayed, queue := k'.queue)
            && (one == 1 ==> x in k.delayed && k.delayed[x] <= now)
            && (x in k'.delayed <==> x in k.delayed && one == 0)
            && (x in k'.delayed ==> k'.delayed[x] == k.delayed[x])
            && Count(k'.queue, x) == Count(k.queue, x) + one
            && Copies(k', x) == Copies(k, x)
  {
    var ready := ZRange(k.delayed, now, batch);
    ZRangeDistinct(k.delayed, now, batch);
    CountPushAll(k.queue, ready, x);
    CountDistinct(ready, x);
  }
}
