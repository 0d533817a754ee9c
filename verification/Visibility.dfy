/** The visibility timeout: how long the reaper leaves a taken copy alone. */
module Visibility {
  import opened Base
  import opened Lists
  import opened SortedSets
  import opened Queue
  import opened Records
  import opened Process
  import opened OneEmail
  import opened Pipeline
  import G = Guarantees
  import Retention

  /** The step is a worker's visibility refresh of `x`, and it takes effect. */
  predicate Refreshes(s: State, a: Step, x: Id) {
    && a.Work? && a.wid in s.workers && s.workers[a.wid].Busy? && s.workers[a.wid].id == x
    && s.workers[a.wid].pc.Refresh? && Applied(a.o.fault)
  }

  /** `x` is not watched, or not due before `until`. */
  predicate NotBefore(s: State, x: Id, until: int) { x in s.env.keys.vis ==> s.env.keys.vis[x] >= until }

  lemma NotDue(s: State, x: Id, until: int, batch: nat)
    requires NotBefore(s, x, until) && s.env.now < until
    ensures x !in ZRange(s.env.keys.vis, s.env.now, batch)
  {
    ZRangeDistinct(s.env.keys.vis, s.env.now, batch);
  }

  lemma CallKeepsVis(c: Config, e: Env, w: Worker, o: Outcome, x: Id, until: int)
    requires Running(w) && (x in e.keys.vis ==> e.keys.vis[x] >= until) && e.now + c.visibility >= until
    ensures var e' := WStep(c, e, w, o).env; x in e'.keys.vis ==> e'.keys.vis[x] >= until
  {
    hide Next, LRem1, Update, Transition, Locks.Acquire, Locks.Release, See, Happens;
  }

  lemma ReapKeepsVis(k: Keys, now: int, batch: nat, x: Id)
    ensures var k' := Queue.Reap(k, now, batch); x in k'.vis ==> x in k.vis && k'.vis[x] == k.vis[x]
  {
    ReapIsRem(k, now, batch);
  }

  lemma {:induction false} ReapEachKeepsVis(k: Keys, ids: seq<Id>)
    ensures ReapEach(k, ids).vis == k.vis
    decreases |ids|
  {
    if ids != [] { ReapEachKeepsVis(ToQueue(k, ids[0]), ids[1..]); }
  }

  lemma ReapIsRem(k: Keys, now: int, batch: nat)
    ensures Queue.Reap(k, now, batch).vis == ZRem(k.vis, ZRange(k.vis, now, batch))
  {
    var expired := ZRange(k.vis, now, batch);
    ReapEachKeepsVis(k.(vis := ZRem(k.vis, expired)), expired);
  }

  lemma WorkKeepsVis(c: Config, s: State, wid: nat, o: Outcome, x: Id, until: int)
    requires wid in s.workers && Running(s.workers[wid]) && NotBefore(s, x, until) && s.env.now + c.visibility >= until
    ensures var s' := ApplyWork(c, s, wid, o); NotBefore(s', x, until) && s'.env.now >= s.env.now
  {
    hide WStep, NoteWork, See;
    CallKeepsVis(c, s.env, s.workers[wid], o, x, until);
    CallTakesTime(c, s.env, s.workers[wid], o);
  }

  lemma SweepKeepsVis(c: Config, e: Env, id: Id, sw: Swept)
    requires id in e.db
    ensures var e' := SweepEffect(c, e, id, sw); e'.keys.vis == e.keys.vis && e'.now == e.now
  {
  }

  lemma StepKeepsVis(c: Config, s: State, a: Step, x: Id, until: int)
    requires Enabled(c, s, a) && NotBefore(s, x, until) && s.env.now + c.visibility >= until
    ensures NotBefore(Apply(c, s, a), x, until) && Apply(c, s, a).env.now >= s.env.now
  {
    hide ApplyWork, NoteSubmit, NoteSweep, SweepEffect, SubmitNext, Queue.Reap, Update, See, HistOf;
    match a
    case Work(wid, o) => WorkKeepsVis(c, s, wid, o, x, until);
    case Reap(batch) => ReapKeepsVis(s.env.keys, s.env.now, batch, x);
    case Sweep(id, sw) => SweepKeepsVis(c, s.env, id, sw);
    case _ =>
  }

  lemma CallTakesTime(c: Config, e: Env, w: Worker, o: Outcome)
    requires Running(w)
    ensures WStep(c, e, w, o).env.now == e.now + o.elapsed
  {
    hide Next, LRem1, Update, Transition, Locks.Acquire, Locks.Release, See, Happens;
  }

  lemma RefreshSetsVis(c: Config, s: State, a: Step, x: Id)
    requires Enabled(c, s, a) && Refreshes(s, a, x)
    ensures var s' := Apply(c, s, a);
            && s'.env.now == s.env.now + a.o.elapsed
            && x in s'.env.keys.vis && s'.env.keys.vis[x] == s'.env.now + c.visibility
  {
    hide Next, NoteWork, See;
  }

  lemma {:induction false} VisHolds(c: Config, states: seq<State>, steps: seq<Step>, x: Id, m: nat, n: nat, until: int)
    requires G.Run(c, states, steps) && m <= n <= |steps|
    requires NotBefore(states[m], x, until) && states[m].env.now + c.visibility >= until
    ensures NotBefore(states[n], x, until) && states[n].env.now >= states[m].env.now
  {
    hide Apply, Enabled, NotBefore;
    if m < n {
      VisHolds(c, states, steps, x, m, n - 1, until);
      StepKeepsVis(c, states[n - 1], steps[n - 1], x, until);
    }
  }

  lemma NotReaped(c: Config, s: State, a: Step, x: Id)
    requires Enabled(c, s, a) && a.Reap? && x !in ZRange(s.env.keys.vis, s.env.now, a.batch)
    ensures var k, k' := s.env.keys, Apply(c, s, a).env.keys;
            Count(k'.processing, x) == Count(k.processing, x) && Count(k'.queue, x) == Count(k.queue, x)
  {
    hide Queue.Reap, ZRange;
    ReapCounts(s.env.keys, s.env.now, a.batch, x);
  }

  /** In every run, after a visibility refresh of `x` at time t no reaper pass takes `x` before t plus the
      visibility timeout; until then it leaves the copies of `x` where they are. */
  lemma SafeFromReaper(c: Config, states: seq<State>, steps: seq<Step>, x: Id, i: nat, n: nat)
    requires G.Run(c, states, steps) && i < n < |steps|
    ensures Refreshes(states[i], steps[i], x) && steps[n].Reap?
            && states[n].env.now < states[i].env.now + steps[i].o.elapsed + c.visibility ==>
              && x !in ZRange(states[n].env.keys.vis, states[n].env.now, steps[n].batch)
              && Count(states[n + 1].env.keys.processing, x) == Count(states[n].env.keys.processing, x)
              && Count(states[n + 1].env.keys.queue, x) == Count(states[n].env.keys.queue, x)
  {
    hide NotBefore, Apply, Enabled;
    if Refreshes(states[i], steps[i], x) && steps[n].Reap?
       && states[n].env.now < states[i].env.now + steps[i].o.elapsed + c.visibility {
      var until := states[i].env.now + steps[i].o.elapsed + c.visibility;
      RefreshGivesNotBefore(c, states[i], steps[i], x);
      VisHolds(c, states, steps, x, i + 1, n, until);
      NotDue(states[n], x, until, steps[n].batch);
      NotReaped(c, states[n], steps[n], x);
    }
  }

  lemma RefreshGivesNotBefore(c: Config, s: State, a: Step, x: Id)
    requires Enabled(c, s, a) && Refreshes(s, a, x)
    ensures var s' := Apply(c, s, a); var until := s.env.now + a.o.elapsed + c.visibility;
            NotBefore(s', x, until) && s'.env.now + c.visibility >= until
  {
    hide Apply, Enabled, Refreshes;
    RefreshSetsVis(c, s, a, x);
  }

  // ----- a prompt worker is not reaped -----

  /** Whenever the reaper runs while some worker holds a copy of `x`, the latest refresh of `x` is less than the
      timeout ago. */
  ghost predicate PromptRun(c: Config, states: seq<State>, steps: seq<Step>, x: Id)
    requires |states| == |steps| + 1
  {
    forall n :: 0 <= n < |steps| && steps[n].Reap? && Retention.Holders(Project(states[n], x)) != {} ==>
      RefreshedBefore(c, states, steps, x, n)
  }

  ghost predicate RefreshedBefore(c: Config, states: seq<State>, steps: seq<Step>, x: Id, n: nat)
    requires |states| == |steps| + 1 && n < |steps|
  {
    exists i :: && 0 <= i < n && Refreshes(states[i], steps[i], x)
                && states[n].env.now < states[i].env.now + steps[i].o.elapsed + c.visibility
  }

  /** Then the reaper only takes copies that no worker holds, which is what `Guarantees.NoLostRetry` asks for. */
  lemma PromptIsDisciplined(c: Config, states: seq<State>, steps: seq<Step>, x: Id)
    requires G.Run(c, states, steps) && PromptRun(c, states, steps, x)
    ensures G.DisciplinedRun(states, steps, x)
  {
    hide Apply, Enabled, Project, Retention.Holders;
    forall n | 0 <= n < |steps| ensures Retention.Disciplined(Project(states[n], x), Image(states[n], steps[n], x)) {
      if steps[n].Reap? && Retention.Holders(Project(states[n], x)) != {} {
        assert RefreshedBefore(c, states, steps, x, n);
        var i :| && 0 <= i < n && Refreshes(states[i], steps[i], x)
                 && states[n].env.now < states[i].env.now + steps[i].o.elapsed + c.visibility;
        SafeFromReaper(c, states, steps, x, i, n);
      }
      OnlyReapsMatter(states[n], steps[n], x);
    }
  }

  lemma OnlyReapsMatter(s: State, a: Step, x: Id)
    ensures Image(s, a, x).Reap? <==> a.Reap? && x in ZRange(s.env.keys.vis, s.env.now, a.batch)
  {
  }
}
