/** Batched passes of the delayed mover and of the reaper, and the loops that drive them. */
module Batches {
  import opened Base
  import opened Lists
  import opened SortedSets
  import opened Queue
  import opened QueueServices

  lemma ZRemTwice(z: ZSet, a: seq<Id>, b: seq<Id>)
    ensures ZRem(ZRem(z, a), b) == ZRem(z, a + b)
  {
  }

  lemma DueShrinks(z: ZSet, now: int, batch: nat)
    ensures var z' := ZRem(z, ZRange(z, now, batch));
            |Due(z', now)| == |Due(z, now)| - Min(batch, |Due(z, now)|)
  {
    var z' := ZRem(z, ZRange(z, now, batch));
    ZRemRange(z, now, batch);
    SortedIsSorted(z, Due(z, now));
    SortedIsSorted(z', Due(z', now));
  }

  lemma WholeRange(z: ZSet, now: int)
    ensures ZRange(z, now, |Due(z, now)|) == Sorted(z, Due(z, now))
  {
    SortedIsSorted(z, Due(z, now));
  }

  /** A range and the range that follows it. */
  lemma RangesJoin(z: ZSet, now: int, batch: nat)
    ensures var z' := ZRem(z, ZRange(z, now, batch));
            ZRange(z, now, batch) + ZRange(z', now, |Due(z', now)|) == ZRange(z, now, |Due(z, now)|)
  {
    var z' := ZRem(z, ZRange(z, now, batch));
    ZRemRange(z, now, batch);
    WholeRange(z, now);
    WholeRange(z', now);
    var all := Sorted(z, Due(z, now));
    var n := Min(batch, |all|);
    assert all[..n] + all[n..] == all;
  }

  // ----- the delayed mover -----

  function MoveAllReady(k: Keys, now: int): Keys { MoveReady(k, now, |Due(k.delayed, now)|) }

  lemma MoveInTwo(k: Keys, now: int, batch: nat)
    ensures MoveAllReady(MoveReady(k, now, batch), now) == MoveAllReady(k, now)
  {
    var z := k.delayed;
    var first := ZRange(z, now, batch);
    var z' := ZRem(z, first);
    var rest := ZRange(z', now, |Due(z', now)|);
    RangesJoin(z, now, batch);
    ZRemTwice(z, first, rest);
    PushAllAppend(k.queue, first, rest);
  }

  lemma NothingReady(k: Keys, now: int)
    requires Due(k.delayed, now) == {}
    ensures MoveAllReady(k, now) == k
  {
    assert ZRange(k.delayed, now, 0) == [];
    assert ZRem(k.delayed, []) == k.delayed;
  }

  /** The body of `poll_delayed_queue` at one moment: whatever the batch size, calling the mover until
      it reports nothing leaves what one unbounded batch would have left. */
  method DrainDelayed(q: QueueService, now: int, batch: nat)
    requires batch >= 1
    modifies q
    ensures q.View() == MoveAllReady(old(q.View()), now)
  {
    var moved := 1;
    while moved != 0
      invariant MoveAllReady(q.View(), now) == MoveAllReady(old(q.View()), now)
      invariant moved == 0 ==> Due(q.delayed, now) == {}
      decreases |Due(q.delayed, now)|, moved
    {
      ghost var k := q.View();
      MoveInTwo(k, now, batch);
      DueShrinks(k.delayed, now, batch);
      SortedIsSorted(k.delayed, Due(k.delayed, now));
      var r := q.MoveReadyDelayed(now, batch, Fine);
      moved := r.value;
    }
    NothingReady(q.View(), now);
  }

  /** Earliest score first, and the smaller id first when scores are equal. */
  predicate InOrder(z: ZSet, ids: seq<Id>) {
    && (forall i :: 0 <= i < |ids| ==> ids[i] in z)
    && forall i, j :: 0 <= i < j < |ids| ==> z[ids[i]] < z[ids[j]] || (z[ids[i]] == z[ids[j]] && ids[i] < ids[j])
  }

  lemma SortedInOrder(z: ZSet, now: int)
    ensures var all := Sorted(z, Due(z, now));
            InOrder(z, all) && forall a :: a in all <==> a in z && 0 <= z[a] <= now
  {
    var all := Sorted(z, Due(z, now));
    SortedIsSorted(z, Due(z, now));
    forall i | 0 <= i < |all| ensures all[i] in Due(z, now) { assert all[i] in Members(all); }
    forall a ensures a in all <==> a in z && 0 <= z[a] <= now { assert a in all <==> a in Members(all); }
    forall i, j | 0 <= i < j < |all|
      ensures z[all[i]] < z[all[j]] || (z[all[i]] == z[all[j]] && all[i] < all[j])
    {
      assert Before(z, all[i], all[j]);
    }
  }

  /** Exactly the ids whose score lies between 0 and now are dequeued after everything that was queued before, in
      (score, id) order, and leave the delayed set. */
  lemma ReadyLeaveInOrder(k: Keys, now: int)
    ensures var k', ready := MoveAllReady(k, now), Sorted(k.delayed, Due(k.delayed, now));
            && DequeueOrder(k'.queue) == DequeueOrder(k.queue) + ready
            && InOrder(k.delayed, ready)
            && (forall a :: a in ready <==> a in k.delayed && 0 <= k.delayed[a] <= now)
            && (forall a :: a in k'.delayed <==> a in k.delayed && !(0 <= k.delayed[a] <= now))
  {
    SortedInOrder(k.delayed, now);
    SortedIsSorted(k.delayed, Due(k.delayed, now));
    var all := Sorted(k.delayed, Due(k.delayed, now));
    assert all[..|all|] == all;
    PushedLeaveLast(k.queue, all);
  }

  // ----- the reaper -----

  lemma {:induction false} ReapEachAppend(k: Keys, a: seq<Id>, b: seq<Id>)
    ensures ReapEach(ReapEach(k, a), b) == ReapEach(k, a + b)
    decreases |a|
  {
    if a == [] {
      assert a + b == b;
    } else {
      ReapEachAppend(ToQueue(k, a[0]), a[1..], b);
      assert (a + b)[1..] == a[1..] + b;
    }
  }

  lemma ReapIs(k: Keys, now: int, batch: nat)
    ensures var ids := ZRange(k.vis, now, batch);
            Reap(k, now, batch) == ReapEach(k, ids).(vis := ZRem(k.vis, ids))
  {
    var ids := ZRange(k.vis, now, batch);
    ReapEachIgnoresVis(k, ZRem(k.vis, ids), ids);
  }

  function ReapAll(k: Keys, now: int): Keys { Reap(k, now, |Due(k.vis, now)|) }

  lemma ReapInTwo(k: Keys, now: int, batch: nat)
    ensures ReapAll(Reap(k, now, batch), now) == ReapAll(k, now)
  {
    var z := k.vis;
    var first := ZRange(z, now, batch);
    var z' := ZRem(z, first);
    var rest := ZRange(z', now, |Due(z', now)|);
    var k1 := Reap(k, now, batch);
    ReapIs(k, now, batch);
    ReapIs(k1, now, |Due(z', now)|);
    ReapIs(k, now, |Due(z, now)|);
    RangesJoin(z, now, batch);
    ZRemTwice(z, first, rest);
    ReapEachIgnoresVis(ReapEach(k, first), z', rest);
    ReapEachAppend(k, first, rest);
  }

  /** `passes` calls of the reaper script at one moment. */
  function Passes(k: Keys, now: int, batch: nat, passes: nat): Keys
    decreases passes
  {
    if passes == 0 then k else Passes(Reap(k, now, batch), now, batch, passes - 1)
  }

  lemma PassShrinks(k: Keys, now: int, batch: nat)
    ensures |Due(Reap(k, now, batch).vis, now)| == |Due(k.vis, now)| - Min(batch, |Due(k.vis, now)|)
  {
    ReapIs(k, now, batch);
    DueShrinks(k.vis, now, batch);
  }

  lemma NothingExpired(k: Keys, now: int)
    requires Due(k.vis, now) == {}
    ensures ReapAll(k, now) == k
  {
    assert ZRange(k.vis, now, 0) == [];
    assert ZRem(k.vis, []) == k.vis;
  }

  /** Each pass takes the `batch` lowest expired entries away, so enough passes drain all of them and
      leave what one unbounded pass would have left, whatever the passes report. */
  lemma {:induction false} PassesDrain(k: Keys, now: int, batch: nat, passes: nat)
    requires passes * batch >= |Due(k.vis, now)|
    ensures Passes(k, now, batch, passes) == ReapAll(k, now)
    ensures Due(Passes(k, now, batch, passes).vis, now) == {}
    decreases passes
  {
    hide Reap, ReapAll, Due;
    if passes == 0 {
      NothingExpired(k, now);
    } else {
      PassShrinks(k, now, batch);
      assert (passes - 1) * batch == passes * batch - batch;
      PassesDrain(Reap(k, now, batch), now, batch, passes - 1);
      ReapInTwo(k, now, batch);
    }
  }

  lemma {:induction false} PassesLast(k: Keys, now: int, batch: nat, passes: nat)
    ensures Reap(Passes(k, now, batch, passes), now, batch) == Passes(k, now, batch, passes + 1)
    decreases passes
  {
    if passes > 0 { PassesLast(Reap(k, now, batch), now, batch, passes - 1); }
  }

  /** `poll_processing_reaper` for a number of passes at one moment. A pass that moves nothing is followed by
      a sleep, but the next one goes on where it stopped. */
  method PollReaper(q: QueueService, now: int, batch: nat, passes: nat) returns (sleeps: nat)
    modifies q
    ensures q.View() == Passes(old(q.View()), now, batch, passes)
    ensures passes * batch >= |Due(old(q.vis), now)| ==> q.View() == ReapAll(old(q.View()), now)
    ensures sleeps <= passes
  {
    hide Reap;
    sleeps := 0;
    ghost var k := q.View();
    for i := 0 to passes
      invariant q.View() == Passes(k, now, batch, i) && sleeps <= i
    {
      PassesLast(k, now, batch, i);
      var r := q.ReapProcessing(now, batch, Fine);
      if r.value == 0 { sleeps := sleeps + 1; }
    }
    if passes * batch >= |Due(k.vis, now)| { PassesDrain(k, now, batch, passes); }
  }

  /** What one pass does to the visibility set: the lowest expired entries go, everything else stays. */
  lemma PassTakesLowest(k: Keys, now: int, batch: nat)
    ensures var all := Sorted(k.vis, Due(k.vis, now));
            var n := Min(batch, |all|);
            var k' := Reap(k, now, batch);
            && Sorted(k'.vis, Due(k'.vis, now)) == all[n..]
            && forall a :: a in k.vis && !(0 <= k.vis[a] <= now) ==> a in k'.vis && k'.vis[a] == k.vis[a]
  {
    ReapIs(k, now, batch);
    ZRemRange(k.vis, now, batch);
    ZRangeDistinct(k.vis, now, batch);
  }

  lemma {:induction false} AmongInOrder(z: ZSet, ids: seq<Id>, s: seq<Id>)
    requires InOrder(z, ids)
    ensures InOrder(z, Among(ids, s)) && forall a :: a in Among(ids, s) <==> a in ids && a in s
  {
    if ids != [] {
      var rest := Among(ids[1..], s);
      AmongInOrder(z, ids[1..], s);
      assert ids == [ids[0]] + ids[1..];
      forall j | 0 <= j < |rest| ensures z[ids[0]] < z[rest[j]] || (z[ids[0]] == z[rest[j]] && ids[0] < rest[j]) {
        assert rest[j] in ids[1..];
        var m :| 0 <= m < |ids[1..]| && ids[1..][m] == rest[j];
        assert ids[m + 1] == rest[j];
      }
    }
  }

  /** A reaper pass puts its ids back in (score, id) order, after everything that was queued before. They were all
      due and in processing; and one big enough pass takes every such id. */
  lemma ReapedLeaveInOrder(k: Keys, now: int, batch: nat)
    ensures var k' := Reap(k, now, batch);
            exists moved ::
              && DequeueOrder(k'.queue) == DequeueOrder(k.queue) + moved && InOrder(k.vis, moved)
              && (forall a :: a in moved ==> 0 <= k.vis[a] <= now && a in k.processing)
              && (batch >= |Due(k.vis, now)| ==>
                    forall a :: a in moved <==> a in k.vis && 0 <= k.vis[a] <= now && a in k.processing)
  {
    var ids := ZRange(k.vis, now, batch);
    RangeInOrder(k.vis, now, batch);
    ZRangeDistinct(k.vis, now, batch);
    ReapIs(k, now, batch);
    ReapedLeaveLast(k, ids);
    hide Reap, ZRange, InOrder, Due;
    AmongInOrder(k.vis, ids, k.processing);
    var moved := Among(ids, k.processing);
    assert DequeueOrder(Reap(k, now, batch).queue) == DequeueOrder(k.queue) + moved;
  }

  lemma RangeInOrder(z: ZSet, now: int, batch: nat)
    ensures var ids := ZRange(z, now, batch);
            && InOrder(z, ids) && (forall a :: a in ids ==> a in z && 0 <= z[a] <= now)
            && (batch >= |Due(z, now)| ==> forall a :: a in ids <==> a in z && 0 <= z[a] <= now)
  {
    var all, ids := Sorted(z, Due(z, now)), ZRange(z, now, batch);
    SortedInOrder(z, now);
    SortedIsSorted(z, Due(z, now));
    assert batch >= |Due(z, now)| ==> ids == all;
    forall a | a in ids ensures a in all { }
  }

  /** The ids of a batch that a worker, dead or alive, still has in processing. */
  function InProcessing(k: Keys, ids: seq<Id>): set<Id> { set a | a in ids && a in k.processing }

  lemma InProcessingCons(k: Keys, ids: seq<Id>)
    requires ids != [] && ids[0] !in ids[1..]
    ensures var rest := InProcessing(ToQueue(k, ids[0]), ids[1..]);
            && ids[0] !in rest
            && InProcessing(k, ids) == if ids[0] in k.processing then {ids[0]} + rest else rest
  {
    var id := ids[0];
    var k1 := ToQueue(k, id);
    forall a | a in ids[1..] ensures a in k1.processing <==> a in k.processing {
      CountIn(k.processing, a);
      CountIn(k1.processing, a);
      ToQueueCounts(k, id, a);
    }
    assert ids == [id] + ids[1..];
  }

  /** The reported count is the number of expired ids that were still in processing. */
  lemma {:induction false} MovedCounts(k: Keys, ids: seq<Id>)
    requires forall i, j :: 0 <= i < j < |ids| ==> ids[i] != ids[j]
    ensures Moved(k, ids) == |InProcessing(k, ids)|
    decreases |ids|
  {
    if ids == [] {
      assert InProcessing(k, ids) == {};
    } else {
      MovedCounts(ToQueue(k, ids[0]), ids[1..]);
      InProcessingCons(k, ids);
    }
  }

  /** Hence a pass reports exactly the expired ids of its batch that it moves back to the queue. */
  lemma PassReports(k: Keys, now: int, batch: nat)
    ensures var ids := ZRange(k.vis, now, batch);
            Moved(k, ids) == |InProcessing(k, ids)|
  {
    ZRangeDistinct(k.vis, now, batch);
    MovedCounts(k, ZRange(k.vis, now, batch));
  }
}
