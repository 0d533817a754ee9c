/** The sweeper: one pass over the records that have waited too long, and the loop around it. */
module Sweepers {
  import opened Base
  import opened Records
  import opened Process
  import opened OneEmail
  import P = Pipeline
  import SS = SortedSets
  import QS = QueueServices
  import ES = EmailServices
  import G = Guarantees

  /** In which of its four counters a pass counts a record. */
  datatype Verdict = Requeued | Skipped | Errored | MarkedFailed

  function VerdictOf(c: Config, v: View, s: Swept): Verdict
    requires v.rec.Some?
  {
    if s.check.Fails? then Errored
    else if v.marked then Skipped
    else if v.rec.value.sweeps >= c.maxSweeps then (if s.write.Fine? then MarkedFailed else Errored)
    else if s.push.Fine? && s.mark.Fine? && s.write.Fine? then Requeued else Errored
  }

  /** Requeued: not marked, sweeps left, and every call came back. Skipped: marked. Marked FAILED: not marked, no sweeps
      left, and the write came back. Errored: a call did not. */
  lemma VerdictIff(c: Config, v: View, s: Swept)
    requires v.rec.Some?
    ensures var verdict, left := VerdictOf(c, v, s), v.rec.value.sweeps < c.maxSweeps;
            && (verdict == Requeued
                <==> s.check.Fine? && !v.marked && left && s.push.Fine? && s.mark.Fine? && s.write.Fine?)
            && (verdict == Skipped <==> s.check.Fine? && v.marked)
            && (verdict == MarkedFailed <==> s.check.Fine? && !v.marked && !left && s.write.Fine?)
            && (verdict == Errored
                <==> || s.check.Fails?
                     || (!v.marked && left && (s.push.Fails? || s.mark.Fails? || s.write.Fails?))
                     || (!v.marked && !left && s.write.Fails?))
  {
  }

  /** The `SELECT` of a pass: PENDING and QUEUED rows not updated since `cutoff`, oldest first. */
  function Selected(db: Table, updatedAt: SS.ZSet, cutoff: int, batch: nat): seq<Id> {
    var due := set id | id in updatedAt && Open(db, id) && updatedAt[id] <= cutoff;
    var all := SS.Sorted(updatedAt, due);
    all[..Min(batch, |all|)]
  }

  predicate Waiting(db: Table, updatedAt: SS.ZSet, cutoff: int, id: Id) {
    id in updatedAt && updatedAt[id] <= cutoff && id in db && (db[id].status == Pending || db[id].status == Queued)
  }

  /** The batch is the oldest waiting rows, oldest first, and all of them if they fit. */
  lemma SelectedIsOldest(db: Table, updatedAt: SS.ZSet, cutoff: int, batch: nat)
    ensures var ids := Selected(db, updatedAt, cutoff, batch);
            && |ids| <= batch
            && (forall i :: 0 <= i < |ids| ==> Waiting(db, updatedAt, cutoff, ids[i]))
            && (forall i, j :: 0 <= i < j < |ids| ==> ids[i] != ids[j] && updatedAt[ids[i]] <= updatedAt[ids[j]])
            && (forall id, i :: Waiting(db, updatedAt, cutoff, id) && id !in ids && 0 <= i < |ids| ==>
                  updatedAt[ids[i]] <= updatedAt[id])
            && (|ids| < batch ==> forall id :: Waiting(db, updatedAt, cutoff, id) ==> id in ids)
  {
    var due := set id | id in updatedAt && Open(db, id) && updatedAt[id] <= cutoff;
    var all, ids := SS.Sorted(updatedAt, due), Selected(db, updatedAt, cutoff, batch);
    SS.SortedIsSorted(updatedAt, due);
    forall i | 0 <= i < |all| ensures all[i] in due {
      assert all[i] in SS.Members(all);
    }
    forall id | Waiting(db, updatedAt, cutoff, id) && id !in ids
      ensures |ids| == batch && forall i :: 0 <= i < |ids| ==> updatedAt[ids[i]] <= updatedAt[id]
    {
      assert id in SS.Members(all);
      var k :| 0 <= k < |all| && all[k] == id;
      assert forall m :: 0 <= m < |ids| ==> all[m] in ids;
      assert forall i :: 0 <= i < |ids| ==> SS.Before(updatedAt, all[i], all[k]);
    }
  }

  lemma SelectedRows(db: Table, updatedAt: SS.ZSet, cutoff: int, batch: nat)
    ensures var ids := Selected(db, updatedAt, cutoff, batch);
            && (forall i :: 0 <= i < |ids| ==> ids[i] in db)
            && (forall i, j :: 0 <= i < j < |ids| ==> ids[i] != ids[j])
  {
    SelectedIsOldest(db, updatedAt, cutoff, batch);
  }

  // ----- one pass -----

  type Oracle = Id -> Swept

  /** What the rest of the system does to the stores before the pass comes to its `i`-th record. */
  type Others = (nat, Env) -> Env

  function Meanwhile(e: Env, i: nat, others: Others): Env {
    e.(keys := others(i, e).keys, db := others(i, e).db)
  }

  ghost predicate Preserves(db: Table, db': Table) {
    forall id :: id in db ==> id in db' && db'[id].sweeps == db[id].sweeps
  }

  /** Rows are never deleted, and this is the only sweeper. */
  ghost predicate OnlySweeper(others: Others) {
    forall i: nat, e: Env :: Preserves(e.db, Meanwhile(e, i, others).db)
  }

  /** The per-record actions, in order. */
  function SweepAll(c: Config, e: Env, ids: seq<Id>, o: Oracle, others: Others): Env {
    if ids == [] then e
    else
      var last := |ids| - 1;
      var before := Meanwhile(SweepAll(c, e, ids[..last], o, others), last, others);
      if ids[last] in before.db then P.SweepEffect(c, before, ids[last], o(ids[last])) else before
  }

  /** How many of `ids` a pass that starts in `e` counts under `verdict`. */
  function Tally(c: Config, e: Env, ids: seq<Id>, o: Oracle, others: Others, verdict: Verdict): nat {
    if ids == [] then 0
    else
      var last := |ids| - 1;
      var v := See(Meanwhile(SweepAll(c, e, ids[..last], o, others), last, others), ids[last]);
      Tally(c, e, ids[..last], o, others, verdict)
      + (if v.rec.Some? && VerdictOf(c, v, o(ids[last])) == verdict then 1 else 0)
  }

  lemma SweptRows(c: Config, e: Env, id: Id, s: Swept)
    requires id in e.db
    ensures var db := P.SweepEffect(c, e, id, s).db;
            db.Keys == e.db.Keys && forall x :: x in e.db && x != id ==> db[x] == e.db[x]
  {
  }

  lemma {:induction false} RowsStay(c: Config, e: Env, ids: seq<Id>, o: Oracle, others: Others)
    requires OnlySweeper(others)
    ensures forall id :: id in e.db ==> id in SweepAll(c, e, ids, o, others).db
  {
    hide P.SweepEffect, Meanwhile;
    if ids != [] {
      var last := |ids| - 1;
      var before := Meanwhile(SweepAll(c, e, ids[..last], o, others), last, others);
      RowsStay(c, e, ids[..last], o, others);
      if ids[last] in before.db { SweptRows(c, before, ids[last], o(ids[last])); }
    }
  }

  /** Every record of a pass is in exactly one counter. */
  lemma {:induction false} TallyIsTotal(c: Config, e: Env, ids: seq<Id>, o: Oracle, others: Others)
    requires OnlySweeper(others) && forall i :: 0 <= i < |ids| ==> ids[i] in e.db
    ensures Tally(c, e, ids, o, others, Requeued) + Tally(c, e, ids, o, others, Skipped)
            + Tally(c, e, ids, o, others, Errored) + Tally(c, e, ids, o, others, MarkedFailed) == |ids|
  {
    hide SweepAll, VerdictOf;
    if ids != [] {
      TallyIsTotal(c, e, ids[..|ids| - 1], o, others);
      RowsStay(c, e, ids[..|ids| - 1], o, others);
    }
  }

  lemma PassNext(c: Config, e: Env, ids: seq<Id>, o: Oracle, others: Others, i: nat)
    requires i < |ids|
    ensures var before := Meanwhile(SweepAll(c, e, ids[..i], o, others), i, others);
            SweepAll(c, e, ids[..i + 1], o, others)
            == if ids[i] in before.db then P.SweepEffect(c, before, ids[i], o(ids[i])) else before
    ensures var v := See(Meanwhile(SweepAll(c, e, ids[..i], o, others), i, others), ids[i]);
            forall verdict :: Tally(c, e, ids[..i + 1], o, others, verdict)
              == Tally(c, e, ids[..i], o, others, verdict)
                 + (if v.rec.Some? && VerdictOf(c, v, o(ids[i])) == verdict then 1 else 0)
  {
    hide P.SweepEffect, See, VerdictOf;
    assert ids[..i + 1][..i] == ids[..i];
  }

  /** The rest of the system stands still. */
  function Still(i: nat, e: Env): Env { e }

  /** What such a pass does to one record depends on that record alone. */
  lemma {:induction false} SweepAllSees(c: Config, e: Env, ids: seq<Id>, o: Oracle, x: Id)
    requires forall i :: 0 <= i < |ids| ==> ids[i] in e.db
    requires forall i, j :: 0 <= i < j < |ids| ==> ids[i] != ids[j]
    ensures See(SweepAll(c, e, ids, o, Still), x)
            == if x in ids && x in e.db then VSweep(c, See(e, x), o(x)) else See(e, x)
  {
    if ids != [] {
      var last := |ids| - 1;
      var y, before := ids[last], SweepAll(c, e, ids[..last], o, Still);
      assert ids == ids[..last] + [y];
      SweepAllSees(c, e, ids[..last], o, x);
      SweepAllSees(c, e, ids[..last], o, y);
      P.SeesSweep(c, before, y, o(y), x);
    }
  }

  /** The sweep counter of a record never passes its maximum, and grows only with a committed requeue. */
  lemma SweepsStayBounded(c: Config, v: View, s: Swept)
    requires v.rec.Some? && v.rec.value.sweeps <= c.maxSweeps
    ensures var v' := VSweep(c, v, s);
            && v'.rec.Some? && v'.rec.value.sweeps <= c.maxSweeps
            && (v'.rec.value.sweeps == v.rec.value.sweeps || v'.rec.value.sweeps == v.rec.value.sweeps + 1)
            && (VerdictOf(c, v, s) == Requeued ==>
                  && v'.marked && v'.queued == v.queued + 1
                  && v'.rec.value.sweeps == v.rec.value.sweeps + 1 && v'.rec.value.status == Queued)
            && (VerdictOf(c, v, s) == MarkedFailed ==> v'.queued == v.queued && v'.rec.value.status == Failed)
            && (VerdictOf(c, v, s) == Skipped ==> v' == v)
  {
  }

  // ----- the sweep budget -----

  predicate Within(c: Config, v: View) { v.rec.Some? ==> v.rec.value.sweeps <= c.maxSweeps }

  lemma CallsKeepSweeps(c: Config, v: View, w: Worker, o: Outcome)
    requires Running(w) && v.rec.Some?
    ensures VStep(c, v, w, o).rec.Some? && VStep(c, v, w, o).rec.value.sweeps == v.rec.value.sweeps
  {
  }

  lemma CallsCreateNothing(c: Config, v: View, w: Worker, o: Outcome)
    requires Running(w) && v.rec.None?
    ensures VStep(c, v, w, o).rec.None?
  {
  }

  lemma StepStaysWithin(c: Config, l: Lone, a: Act)
    requires LEnabled(c, l, a) && Within(c, l.view)
    ensures Within(c, LStep(c, l, a).view)
  {
    hide VStep, Next, NoteWork, VSweep;
    match a
    case Work(wid, o) =>
      if l.view.rec.Some? { CallsKeepSweeps(c, l.view, l.crew[wid], o); }
      else { CallsCreateNothing(c, l.view, l.crew[wid], o); }
    case Sweep(s) => SweepsStayBounded(c, l.view, s);
    case _ =>
  }

  /** Whatever else runs, a record's sweep counter never passes the maximum. */
  lemma {:induction false} SweepBudget(c: Config, states: seq<P.State>, steps: seq<P.Step>, x: Id, n: nat)
    requires G.Run(c, states, steps) && n <= |steps| && Within(c, See(states[0].env, x))
    ensures Within(c, See(states[n].env, x))
  {
    hide P.Apply, P.Enabled, LStep, LEnabled, P.Image, Within;
    if n > 0 {
      SweepBudget(c, states, steps, x, n - 1);
      P.StepProjects(c, states[n - 1], steps[n - 1], x);
      StepStaysWithin(c, P.Project(states[n - 1], x), P.Image(states[n - 1], steps[n - 1], x));
      assert P.Project(states[n], x) == LStep(c, P.Project(states[n - 1], x), P.Image(states[n - 1], steps[n - 1], x));
    }
  }

  class SweeperService {
    const c: Config
    const batch: nat
    const queue: QS.QueueService
    const emails: ES.EmailService
    var requeuedTotal: nat
    var skippedTotal: nat
    var erroredTotal: nat
    var failedTotal: nat

    constructor (c: Config, batch: nat, queue: QS.QueueService, emails: ES.EmailService)
      ensures this.c == c && this.batch == batch && this.queue == queue && this.emails == emails
      ensures requeuedTotal == 0 && skippedTotal == 0 && erroredTotal == 0 && failedTotal == 0
    {
      this.c, this.batch, this.queue, this.emails := c, batch, queue, emails;
      requeuedTotal, skippedTotal, erroredTotal, failedTotal := 0, 0, 0, 0;
    }

    function Stores(): Env
      reads this, queue, emails
    {
      Env(0, queue.View(), map[], emails.rows)
    }

    /** The body of the loop; `count` is the sweep counter of the record as the SELECT returned it. */
    method SweepRecord(id: Id, count: nat, s: Swept) returns (verdict: Verdict)
      requires id in emails.rows && count == emails.rows[id].sweeps
      modifies queue, emails
      ensures Stores() == P.SweepEffect(c, old(Stores()), id, s)
      ensures verdict == VerdictOf(c, See(old(Stores()), id), s)
    {
      var queued := queue.IsQueued(id, s.check);
      if queued.RedisError? { return Errored; }
      if queued.value { return Skipped; }
      if count >= c.maxSweeps {
        if Applied(s.write) { emails.rows := emails.rows[id := emails.rows[id].(status := Failed)]; }
        return if s.write.Fine? then MarkedFailed else Errored;
      }
      var ok := queue.Enqueue(id, s.push, s.mark);
      if !ok { return Errored; }
      if Applied(s.write) { emails.rows := emails.rows[id := emails.rows[id].(status := Queued, sweeps := count + 1)]; }
      verdict := if s.write.Fine? then Requeued else Errored;
    }

    /** The rest of the system gets its turn. */
    method Yield(i: nat, others: Others)
      modifies queue, emails
      ensures Stores() == Meanwhile(old(Stores()), i, others)
    {
      var e := others(i, Stores());
      var k := e.keys;
      queue.queue, queue.processing, queue.vis, queue.delayed := k.queue, k.processing, k.vis, k.delayed;
      queue.dlq, queue.marked, queue.dbErrors := k.dlq, k.marked, k.dbErrors;
      emails.rows := e.db;
    }

    /** `sweep_once`; `updatedAt` is the column of that name. Between the SELECT and each action the rest of
        the system goes on, and the status is not looked at again. */
    method SweepOnce(updatedAt: SS.ZSet, cutoff: int, o: Oracle, others: Others) returns (requeued: nat)
      requires OnlySweeper(others)
      modifies this, queue, emails
      ensures var e, ids := old(Stores()), Selected(old(emails.rows), updatedAt, cutoff, batch);
              && Stores() == SweepAll(c, e, ids, o, others)
              && requeued == Tally(c, e, ids, o, others, Requeued)
              && requeuedTotal == old(requeuedTotal) + requeued
              && skippedTotal == old(skippedTotal) + Tally(c, e, ids, o, others, Skipped)
              && erroredTotal == old(erroredTotal) + Tally(c, e, ids, o, others, Errored)
              && failedTotal == old(failedTotal) + Tally(c, e, ids, o, others, MarkedFailed)
              && requeuedTotal + skippedTotal + erroredTotal + failedTotal
                 == old(requeuedTotal + skippedTotal + erroredTotal + failedTotal) + |ids|
    {
      hide P.SweepEffect, Selected, See, VerdictOf, OnlySweeper, Meanwhile;
      ghost var e := Stores();
      var records := emails.rows;
      var ids := Selected(records, updatedAt, cutoff, batch);
      SelectedRows(records, updatedAt, cutoff, batch);
      requeued := 0;
      var i := 0;
      while i < |ids|
        invariant 0 <= i <= |ids|
        invariant Stores() == SweepAll(c, e, ids[..i], o, others)
        invariant Unswept(records, emails.rows, ids, i)
        invariant requeued == Tally(c, e, ids[..i], o, others, Requeued)
        invariant requeuedTotal == old(requeuedTotal) + requeued
        invariant skippedTotal == old(skippedTotal) + Tally(c, e, ids[..i], o, others, Skipped)
        invariant erroredTotal == old(erroredTotal) + Tally(c, e, ids[..i], o, others, Errored)
        invariant failedTotal == old(failedTotal) + Tally(c, e, ids[..i], o, others, MarkedFailed)
      {
        hide SweepAll, Tally, Unswept;
        PassNext(c, e, ids, o, others, i);
        StaysUnswept(records, Stores(), ids, i, others);
        Yield(i, others);
        ghost var before := Stores();
        NextUnswept(c, records, before, ids, i, o(ids[i]));
        SeesRow(before, ids[i]);
        var verdict := SweepRecord(ids[i], records[ids[i]].sweeps, o(ids[i]));
        match verdict {
          case Requeued => requeued, requeuedTotal := requeued + 1, requeuedTotal + 1;
          case Skipped => skippedTotal := skippedTotal + 1;
          case Errored => erroredTotal := erroredTotal + 1;
          case MarkedFailed => failedTotal := failedTotal + 1;
        }
        i := i + 1;
      }
      assert ids[..i] == ids;
      TallyIsTotal(c, e, ids, o, others);
    }
  }

  /** The records from `i` on are still there with the sweep counter that the SELECT returned. */
  ghost predicate Unswept(records: Table, rows: Table, ids: seq<Id>, i: nat) {
    && (forall j, k :: 0 <= j < k < |ids| ==> ids[j] != ids[k])
    && forall j :: i <= j < |ids| ==>
         ids[j] in records && ids[j] in rows && rows[ids[j]].sweeps == records[ids[j]].sweeps
  }

  lemma StaysUnswept(records: Table, e: Env, ids: seq<Id>, i: nat, others: Others)
    requires Unswept(records, e.db, ids, i) && OnlySweeper(others)
    ensures Unswept(records, Meanwhile(e, i, others).db, ids, i)
  {
    hide Meanwhile;
  }

  lemma NextUnswept(c: Config, records: Table, e: Env, ids: seq<Id>, i: nat, s: Swept)
    requires Unswept(records, e.db, ids, i) && i < |ids|
    ensures ids[i] in records && ids[i] in e.db && e.db[ids[i]].sweeps == records[ids[i]].sweeps
    ensures Unswept(records, P.SweepEffect(c, e, ids[i], s).db, ids, i + 1)
  {
    hide P.SweepEffect;
    SweptRows(c, e, ids[i], s);
  }

  lemma SeesRow(e: Env, id: Id)
    ensures See(e, id).rec.Some? <==> id in e.db
  {
  }

  // ----- the loop -----

  function Power(n: nat): real { if n == 0 then 1.0 else 2.0 * Power(n - 1) }

  function MinR(a: real, b: real): real { if a < b then a else b }

  function MaxR(a: real, b: real): real { if a < b then b else a }

  /** The failures since the latest success. */
  function Streak(passes: seq<bool>): nat {
    if passes == [] || passes[|passes| - 1] then 0 else 1 + Streak(passes[..|passes| - 1])
  }

  /** The backoff after `k` failures in a row. */
  function BackoffAfter(interval: real, k: nat): real {
    if k == 0 then interval else MinR(MinR(300.0, 8.0 * interval), interval * Power(k))
  }

  lemma Doubled(x: real, p: real)
    ensures x * (2.0 * p) == 2.0 * (x * p)
  {
  }

  lemma BackoffDoubles(interval: real, k: nat)
    requires interval >= 1.0
    ensures MinR(MinR(300.0, 8.0 * interval), 2.0 * BackoffAfter(interval, k)) == BackoffAfter(interval, k + 1)
  {
    assert Power(k + 1) == 2.0 * Power(k);
    Doubled(interval, Power(k));
    var grown := interval * Power(k);
    assert k == 0 ==> grown == interval;
  }

  lemma StreakNext(passes: seq<bool>, n: nat)
    requires n < |passes|
    ensures Streak(passes[..n + 1]) == if passes[n] then 0 else 1 + Streak(passes[..n])
  {
    assert passes[..n + 1][..n] == passes[..n];
  }

  /** How long the loop sleeps after pass `i`. */
  function SleepAfter(interval: real, passes: seq<bool>, jitters: seq<real>, i: nat): real
    requires i < |passes| == |jitters|
  {
    if passes[i] then interval else BackoffAfter(interval, Streak(passes[..i])) * jitters[i]
  }

  /** `run_forever`, for as many passes as are given: whether each came back normally, and the jitter
      drawn if it did not. */
  method RunPasses(intervalSeconds: real, passes: seq<bool>, jitters: seq<real>)
    returns (sleeps: seq<real>, backoff: real)
    requires |jitters| == |passes|
    ensures var interval := MaxR(intervalSeconds, 1.0);
            && backoff == BackoffAfter(interval, Streak(passes))
            && |sleeps| == |passes|
            && (forall i :: 0 <= i < |passes| ==> sleeps[i] == SleepAfter(interval, passes, jitters, i))
            && (passes == [] || passes[|passes| - 1] ==> backoff == interval)
            && (forall i :: 0 <= i < |passes| && passes[i] ==> sleeps[i] == interval)
            && (forall i :: 0 <= i < |passes| && !passes[i] ==>
                  sleeps[i] == BackoffAfter(interval, Streak(passes[..i])) * jitters[i])
  {
    hide Streak, Power;
    var interval := MaxR(intervalSeconds, 1.0);
    var maxBackoff := MinR(300.0, 8.0 * interval);
    backoff := interval;
    sleeps := [];
    StreakOfNone(passes);
    var n := 0;
    while n < |passes|
      invariant 0 <= n <= |passes| && |sleeps| == n
      invariant backoff == BackoffAfter(interval, Streak(passes[..n]))
      invariant forall i :: 0 <= i < n ==> sleeps[i] == SleepAfter(interval, passes, jitters, i)
      decreases |passes| - n
    {
      hide BackoffAfter, MinR;
      StreakNext(passes, n);
      BackoffOfNone(interval);
      if passes[n] {
        backoff := interval;
        sleeps := sleeps + [interval];
      } else {
        sleeps := sleeps + [backoff * jitters[n]];
        BackoffDoubles(interval, Streak(passes[..n]));
        backoff := MinR(maxBackoff, 2.0 * backoff);
      }
      n := n + 1;
    }
    assert passes[..n] == passes;
    LastPassDecides(interval, passes);
    forall i | 0 <= i < |passes|
      ensures sleeps[i] == if passes[i] then interval else BackoffAfter(interval, Streak(passes[..i])) * jitters[i]
    {
      assert sleeps[i] == SleepAfter(interval, passes, jitters, i);
    }
  }

  lemma LastPassDecides(interval: real, passes: seq<bool>)
    ensures passes == [] || passes[|passes| - 1] ==> BackoffAfter(interval, Streak(passes)) == interval
  {
  }

  function Failures(k: nat): seq<bool> { if k == 0 then [] else Failures(k - 1) + [false] }

  /** After k failures since a success or the start, the backoff is the interval times 2^k, at most eight intervals
      and at most 300 seconds. */
  lemma FailuresDouble(interval: real, before: seq<bool>, k: nat)
    requires k >= 1 && (before == [] || before[|before| - 1])
    ensures var passes := before + Failures(k);
            var grown := interval * Power(k);
            BackoffAfter(interval, Streak(passes)) == (if grown <= 300.0 && grown <= 8.0 * interval then grown
                                                       else if 8.0 * interval <= 300.0 then 8.0 * interval else 300.0)
  {
    hide Streak, Power;
    StreakIs(before, k);
    var grown := interval * Power(k);
    LeastOfThree(interval, grown);
    assert BackoffAfter(interval, k) == MinR(MinR(300.0, 8.0 * interval), grown);
    assert Streak(before + Failures(k)) == k;
  }

  lemma LeastOfThree(interval: real, grown: real)
    ensures MinR(MinR(300.0, 8.0 * interval), grown)
            == (if grown <= 300.0 && grown <= 8.0 * interval then grown
                else if 8.0 * interval <= 300.0 then 8.0 * interval else 300.0)
  {
  }

  lemma {:induction false} StreakIs(before: seq<bool>, k: nat)
    requires before == [] || before[|before| - 1]
    ensures Streak(before + Failures(k)) == k
  {
    var passes := before + Failures(k);
    if k == 0 {
      assert passes == before;
    } else {
      StreakIs(before, k - 1);
      assert passes[..|passes| - 1] == before + Failures(k - 1);
      assert !passes[|passes| - 1];
    }
  }

  lemma StreakOfNone(passes: seq<bool>)
    ensures Streak(passes[..0]) == 0
  {
  }

  lemma BackoffOfNone(interval: real)
    ensures BackoffAfter(interval, 0) == interval
  {
  }
}
