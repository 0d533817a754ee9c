/** What every run of the pipeline guarantees, for every id and any interleaving. */
module Guarantees {
  import opened Base
  import Backoff
  import opened Records
  import opened Queue
  import opened Process
  import opened OneEmail
  import opened Pipeline
  import Fence
  import Exclusion
  import Marker
  import Budget
  import Currency
  import Retention
  import Idempotency

  ghost predicate Run(c: Config, states: seq<State>, steps: seq<Step>) {
    && |states| == |steps| + 1
    && forall i :: 0 <= i < |steps| ==>
         Enabled(c, states[i], steps[i]) && states[i + 1] == Apply(c, states[i], steps[i])
  }

  /** No worker or submission has started; what the stores hold is arbitrary, duplicates included. */
  ghost predicate Started(s: State) {
    && s.workers == map[] && s.subs == map[] && s.hist == map[]
    && forall x :: x in s.env.locks ==> s.env.locks[x].token < s.next
  }

  lemma StartedProjects(s: State, x: Id)
    requires Started(s)
    ensures var l := Project(s, x); l.crew == map[] && l.subs == map[] && l.hist == NO_HISTORY
  {
  }

  lemma InvariantsAtStart(c: Config, s: State, x: Id)
    requires Started(s)
    ensures var l := Project(s, x);
            Fence.Inv(l) && Exclusion.Inv(c, l) && Budget.Inv(c, l) && Currency.Inv(c, l) && Retention.Kept(l)
  {
    StartedProjects(s, x);
    assert Retention.Holders(Project(s, x)) == {};
  }

  // ----- fenced sends -----

  ghost predicate GentleRun(states: seq<State>, steps: seq<Step>, x: Id)
    requires |states| == |steps| + 1
  {
    forall i :: 0 <= i < |steps| ==> Fence.Gentle(Project(states[i], x), Image(states[i], steps[i], x))
  }

  lemma FenceStep(c: Config, s: State, a: Step, x: Id)
    requires Enabled(c, s, a) && Fence.Inv(Project(s, x)) && Fence.Gentle(Project(s, x), Image(s, a, x))
    ensures Fence.Inv(Project(Apply(c, s, a), x))
  {
    StepProjects(c, s, a, x);
    Fence.Kept(c, Project(s, x), Image(s, a, x));
  }

  lemma {:induction false} FenceHolds(c: Config, states: seq<State>, steps: seq<Step>, x: Id, n: nat)
    requires Run(c, states, steps) && Started(states[0]) && GentleRun(states, steps, x) && n <= |steps|
    ensures Fence.Inv(Project(states[n], x))
  {
    hide Fence.Inv, Fence.Gentle, Project, Image, Apply, Enabled;
    if n == 0 {
      InvariantsAtStart(c, states[0], x);
    } else {
      FenceHolds(c, states, steps, x, n - 1);
      FenceStep(c, states[n - 1], steps[n - 1], x);
    }
  }

  predicate InFlight(s: State, k: nat, x: Id) {
    k in s.workers && s.workers[k].Busy? && s.workers[k].id == x && Fence.InFlight(Fence.RoleOf(s.workers[k]))
  }

  /** At every moment at most one worker is between the compare-and-set and the outcome write of an
      email, and the SMTP server has accepted the email at most once. */
  lemma FencedSends(c: Config, states: seq<State>, steps: seq<Step>, x: Id, n: nat)
    requires Run(c, states, steps) && Started(states[0]) && GentleRun(states, steps, x) && n <= |steps|
    ensures HistOf(states[n], x).accepted <= 1
    ensures forall j, k :: InFlight(states[n], j, x) && InFlight(states[n], k, x) ==> j == k
  {
    FenceHolds(c, states, steps, x, n);
    var l := Project(states[n], x);
    forall j, k | InFlight(states[n], j, x) && InFlight(states[n], k, x) ensures j == k {
      assert l.crew[j] == states[n].workers[j] && l.crew[k] == states[n].workers[k];
    }
  }

  // ----- exclusion and retry budget -----

  lemma ExclusionStep(c: Config, s: State, a: Step, x: Id)
    requires Enabled(c, s, a) && Exclusion.Inv(c, Project(s, x))
    ensures Exclusion.Inv(c, Project(Apply(c, s, a), x))
  {
    StepProjects(c, s, a, x);
    Exclusion.Kept(c, Project(s, x), Image(s, a, x));
  }

  lemma {:induction false} ExclusionHolds(c: Config, states: seq<State>, steps: seq<Step>, x: Id, n: nat)
    requires Run(c, states, steps) && Started(states[0]) && n <= |steps|
    ensures Exclusion.Inv(c, Project(states[n], x))
  {
    hide Exclusion.Inv, Image, Apply, Enabled;
    if n == 0 {
      InvariantsAtStart(c, states[0], x);
    } else {
      ExclusionHolds(c, states, steps, x, n - 1);
      ExclusionStep(c, states[n - 1], steps[n - 1], x);
    }
  }

  predicate InSection(s: State, k: nat, x: Id) {
    k in s.workers && s.workers[k].Busy? && s.workers[k].id == x && Exclusion.InSection(s.workers[k])
  }

  /** Of two workers in the locked section of one email, the one that locked first was past its time to
      live when the other locked. */
  lemma TwoInSection(c: Config, states: seq<State>, steps: seq<Step>, x: Id, n: nat, j: nat, k: nat)
    requires Run(c, states, steps) && Started(states[0]) && n <= |steps| && c.lockTtl >= 1
    requires InSection(states[n], j, x) && InSection(states[n], k, x) && j != k
    requires states[n].workers[j].acquiredAt <= states[n].workers[k].acquiredAt
    ensures states[n].workers[j].acquiredAt + c.lockTtl <= states[n].workers[k].acquiredAt <= states[n].env.now
  {
    ExclusionHolds(c, states, steps, x, n);
    var l := Project(states[n], x);
    assert l.crew[j] == states[n].workers[j] && l.crew[k] == states[n].workers[k];
    Exclusion.EarlierIsExpired(c, l, j, k);
  }

  ghost predicate TimelyRun(c: Config, states: seq<State>, steps: seq<Step>, x: Id)
    requires |states| == |steps| + 1
  {
    forall i :: 0 <= i < |steps| ==> Budget.Timely(c, Project(states[i], x), Image(states[i], steps[i], x))
  }

  lemma BudgetStep(c: Config, s: State, a: Step, x: Id)
    requires Enabled(c, s, a) && Exclusion.Inv(c, Project(s, x)) && Budget.Inv(c, Project(s, x))
    requires Budget.Timely(c, Project(s, x), Image(s, a, x))
    ensures Budget.Inv(c, Project(Apply(c, s, a), x))
  {
    StepProjects(c, s, a, x);
    Budget.Kept(c, Project(s, x), Image(s, a, x));
  }

  lemma {:induction false} BudgetHolds(c: Config, states: seq<State>, steps: seq<Step>, x: Id, n: nat)
    requires Run(c, states, steps) && Started(states[0]) && TimelyRun(c, states, steps, x) && n <= |steps|
    ensures Budget.Inv(c, Project(states[n], x))
  {
    hide Exclusion.Inv, Budget.Inv, Budget.Timely, Project, Image, Apply, Enabled, Started;
    if n == 0 {
      InvariantsAtStart(c, states[0], x);
    } else {
      BudgetHolds(c, states, steps, x, n - 1);
      ExclusionHolds(c, states, steps, x, n - 1);
      BudgetStep(c, states[n - 1], steps[n - 1], x);
    }
  }

  /** An email costs at most `max_retries` SMTP attempts, and never more than it has retries counted,
      plus one while its status shows an attempt. */
  lemma RetryBudget(c: Config, states: seq<State>, steps: seq<Step>, x: Id, n: nat)
    requires Run(c, states, steps) && Started(states[0]) && TimelyRun(c, states, steps, x) && n <= |steps|
    ensures HistOf(states[n], x).attempts <= c.maxRetries
    ensures x in states[n].env.db ==>
              var rec := states[n].env.db[x];
              HistOf(states[n], x).attempts <= rec.retryCount + (if Budget.Spent(rec.status) then 1 else 0)
  {
    BudgetHolds(c, states, steps, x, n);
  }

  ghost predicate CurrentRun(states: seq<State>, steps: seq<Step>, x: Id)
    requires |states| == |steps| + 1
  {
    forall i :: 0 <= i < |steps| ==> Currency.Current(Project(states[i], x), Image(states[i], steps[i], x))
  }

  lemma CurrencyStep(c: Config, s: State, a: Step, x: Id)
    requires Enabled(c, s, a) && Fence.Inv(Project(s, x)) && Currency.Inv(c, Project(s, x))
    requires Fence.Gentle(Project(s, x), Image(s, a, x)) && Currency.Current(Project(s, x), Image(s, a, x))
    ensures Currency.Inv(c, Project(Apply(c, s, a), x))
  {
    StepProjects(c, s, a, x);
    Currency.Kept(c, Project(s, x), Image(s, a, x));
  }

  lemma {:induction false} CurrencyHolds(c: Config, states: seq<State>, steps: seq<Step>, x: Id, n: nat)
    requires Run(c, states, steps) && Started(states[0]) && GentleRun(states, steps, x)
    requires CurrentRun(states, steps, x) && n <= |steps|
    ensures Currency.Inv(c, Project(states[n], x))
  {
    hide Fence.Inv, Fence.Gentle, Currency.Inv, Currency.Current, Project, Image, Apply, Enabled, Started;
    if n == 0 {
      InvariantsAtStart(c, states[0], x);
    } else {
      CurrencyHolds(c, states, steps, x, n - 1);
      FenceHolds(c, states, steps, x, n - 1);
      CurrencyStep(c, states[n - 1], steps[n - 1], x);
    }
  }

  /** The same bound without any assumption on the lock, for runs in which the compare-and-set hits only for
      workers whose copy has the row's retry count. */
  lemma RetryBudgetWhenCurrent(c: Config, states: seq<State>, steps: seq<Step>, x: Id, n: nat)
    requires Run(c, states, steps) && Started(states[0]) && GentleRun(states, steps, x)
    requires CurrentRun(states, steps, x) && n <= |steps|
    ensures HistOf(states[n], x).attempts <= c.maxRetries
    ensures x in states[n].env.db ==>
              var rec := states[n].env.db[x];
              HistOf(states[n], x).attempts <= rec.retryCount + (if Budget.Spent(rec.status) then 1 else 0)
  {
    hide Image, Apply, Enabled, Fence.Gentle, Currency.Current;
    CurrencyHolds(c, states, steps, x, n);
  }

  // ----- the marker -----

  /** The sweeper acts on records that are still PENDING or QUEUED, or skips them. */
  ghost predicate FittingRun(states: seq<State>, steps: seq<Step>, x: Id)
    requires |states| == |steps| + 1
  {
    forall i :: 0 <= i < |steps| ==> Marker.Fitting(Project(states[i], x), Image(states[i], steps[i], x))
  }

  lemma MarkerStep(c: Config, s: State, a: Step, x: Id)
    requires Enabled(c, s, a) && Marker.Inv(Project(s, x)) && Marker.Fitting(Project(s, x), Image(s, a, x))
    ensures Marker.Inv(Project(Apply(c, s, a), x))
  {
    StepProjects(c, s, a, x);
    Marker.Kept(c, Project(s, x), Image(s, a, x));
  }

  lemma {:induction false} MarkerHolds(c: Config, states: seq<State>, steps: seq<Step>, x: Id, n: nat)
    requires Run(c, states, steps) && Started(states[0]) && FittingRun(states, steps, x) && n <= |steps|
    requires Marker.Inv(Project(states[0], x))
    ensures Marker.Inv(Project(states[n], x))
  {
    hide Marker.Inv, Marker.Fitting, Image, Apply, Enabled;
    if n > 0 {
      MarkerHolds(c, states, steps, x, n - 1);
      MarkerStep(c, states[n - 1], steps[n - 1], x);
    }
  }

  /** Redis knows nothing of `x`. */
  predicate Absent(s: State, x: Id) { Copies(s.env.keys, x) == 0 && x !in s.env.keys.marked }

  lemma MarkerAtStart(s: State, x: Id)
    requires Started(s) && Absent(s, x)
    ensures Marker.Inv(Project(s, x)) && !Project(s, x).hist.lost
  {
    StartedProjects(s, x);
  }

  /** From empty queues, a PENDING or QUEUED email is in the queued set exactly when Redis still has a
      copy or a dead letter of it, unless its latest push has not been followed by its marker update. */
  lemma QueuedSetIsExact(c: Config, states: seq<State>, steps: seq<Step>, x: Id, n: nat)
    requires Run(c, states, steps) && Started(states[0]) && FittingRun(states, steps, x) && n <= |steps|
    requires Absent(states[0], x)
    ensures var s := states[n];
            Open(s.env.db, x) ==>
              && (x in s.env.keys.marked ==> Copies(s.env.keys, x) > 0)
              && (Copies(s.env.keys, x) > 0 ==> x in s.env.keys.marked || HistOf(s, x).lost)
  {
    MarkerAtStart(states[0], x);
    MarkerHolds(c, states, steps, x, n);
  }

  /** Every push of `x` that takes effect comes back normally and is followed by its marker update. */
  ghost predicate WholeRun(c: Config, states: seq<State>, steps: seq<Step>, x: Id)
    requires |states| == |steps| + 1
  {
    forall i :: 0 <= i < |steps| ==> Marker.Whole(c, Project(states[i], x), Image(states[i], steps[i], x))
  }

  /** A submission of `x` is between the two commands of its enqueue. */
  predicate Enqueueing(s: State, x: Id) { exists k :: k in s.subs && s.subs[k] == Submission(x, ToMark) }

  lemma EnqueueingProjects(s: State, x: Id)
    ensures Marker.Enqueueing(Project(s, x)) ==> Enqueueing(s, x)
  {
    if k :| k in Project(s, x).subs && Project(s, x).subs[k].ToMark? {
      assert s.subs[k] == Submission(x, ToMark);
    }
  }

  lemma LostStep(c: Config, s: State, a: Step, x: Id)
    requires Enabled(c, s, a) && Marker.Whole(c, Project(s, x), Image(s, a, x))
    requires Project(s, x).hist.lost ==> Marker.Enqueueing(Project(s, x))
    ensures var l' := Project(Apply(c, s, a), x); l'.hist.lost ==> Marker.Enqueueing(l')
  {
    hide Marker.Whole, Marker.Enqueueing;
    StepProjects(c, s, a, x);
    Marker.LostOnlyEnqueueing(c, Project(s, x), Image(s, a, x));
  }

  lemma {:induction false} LostHolds(c: Config, states: seq<State>, steps: seq<Step>, x: Id, n: nat)
    requires Run(c, states, steps) && Started(states[0]) && WholeRun(c, states, steps, x) && n <= |steps|
    ensures Project(states[n], x).hist.lost ==> Marker.Enqueueing(Project(states[n], x))
  {
    hide Marker.Whole, Marker.Enqueueing, Image, Apply, Enabled;
    if n == 0 {
      StartedProjects(states[0], x);
    } else {
      LostHolds(c, states, steps, x, n - 1);
      LostStep(c, states[n - 1], steps[n - 1], x);
    }
  }

  /** When every push gets its marker, the queued set is exact for a PENDING or QUEUED email at every
      moment at which no submission is in the middle of enqueueing it. */
  lemma MarkedIffPresent(c: Config, states: seq<State>, steps: seq<Step>, x: Id, n: nat)
    requires Run(c, states, steps) && Started(states[0]) && n <= |steps|
    requires FittingRun(states, steps, x) && WholeRun(c, states, steps, x)
    requires Absent(states[0], x)
    ensures var s := states[n];
            Open(s.env.db, x) && !Enqueueing(s, x) ==> (x in s.env.keys.marked <==> Copies(s.env.keys, x) > 0)
  {
    QueuedSetIsExact(c, states, steps, x, n);
    LostHolds(c, states, steps, x, n);
    EnqueueingProjects(states[n], x);
  }

  /** The step is a sweeper action that pushes `x`. */
  predicate SweptIn(c: Config, s: State, a: Step, x: Id) { a.Sweep? && a.id == x && Sweeps(c, See(s.env, x), a.s) }

  /** So in such a run the sweeper never adds a copy of an email that Redis still has. */
  lemma SweeperAddsNoCopy(c: Config, states: seq<State>, steps: seq<Step>, x: Id, n: nat)
    requires Run(c, states, steps) && Started(states[0]) && n < |steps|
    requires FittingRun(states, steps, x) && WholeRun(c, states, steps, x)
    requires Absent(states[0], x)
    ensures SweptIn(c, states[n], steps[n], x) && !Enqueueing(states[n], x) ==>
              && Copies(states[n].env.keys, x) == 0
              && HistOf(states[n + 1], x).pushes == HistOf(states[n], x).pushes + 1
  {
    MarkedIffPresent(c, states, steps, x, n);
    if SweptIn(c, states[n], steps[n], x) {
      SweptRecordIsOpen(c, states[n], steps[n], x);
    }
  }

  lemma SweptRecordIsOpen(c: Config, s: State, a: Step, x: Id)
    requires Enabled(c, s, a) && SweptIn(c, s, a, x) && Marker.Fitting(Project(s, x), Image(s, a, x))
    ensures Open(s.env.db, x) && x !in s.env.keys.marked
    ensures HistOf(Apply(c, s, a), x).pushes == HistOf(s, x).pushes + 1
  {
    hide SweepEffect, VSweep, CrewOf, SubsOf;
  }

  /** `x` waits, and Redis has no copy and no dead letter of it. */
  predicate Missing(s: State, x: Id) { Open(s.env.db, x) && Copies(s.env.keys, x) == 0 }

  /** A sweeper action on `x` that gets its push and its marker through; its write may fail. */
  predicate SweepArrives(c: Config, s: State, a: Step, x: Id) {
    && a.Sweep? && a.id == x && x in s.env.db && s.env.db[x].sweeps < c.maxSweeps
    && a.s.check.Fine? && a.s.push.Fine? && a.s.mark.Fine?
  }

  /** In every run, a PENDING or QUEUED email of which Redis has nothing gets exactly one copy and its marker
      back from such an action. */
  lemma MissingWorkReturns(c: Config, states: seq<State>, steps: seq<Step>, x: Id, n: nat)
    requires Run(c, states, steps) && Started(states[0]) && FittingRun(states, steps, x) && n < |steps|
    requires Absent(states[0], x)
    ensures SweepArrives(c, states[n], steps[n], x) && Missing(states[n], x) ==>
              var s' := states[n + 1];
              && Open(s'.env.db, x) && x in s'.env.keys.marked
              && Copies(s'.env.keys, x) == 1 && Lists.Count(s'.env.keys.queue, x) == 1
  {
    hide Apply, Enabled, SweepEffect, LSweep, Marker.Inv, Marker.Fitting;
    if SweepArrives(c, states[n], steps[n], x) && Missing(states[n], x) {
      MarkerAtStart(states[0], x);
      MarkerHolds(c, states, steps, x, n);
      StepProjects(c, states[n], steps[n], x);
      Marker.MissingWorkReturns(c, Project(states[n], x), steps[n].s);
      var l := Project(states[n], x);
      assert LStep(c, l, Image(states[n], steps[n], x)) == LSweep(c, l, steps[n].s);
    }
  }

  /** A sweeper action on `x` whose sweeps are used up and whose FAILED write takes effect. */
  predicate SweepGivesUp(c: Config, s: State, a: Step, x: Id) {
    && a.Sweep? && a.id == x && x in s.env.db && s.env.db[x].sweeps >= c.maxSweeps
    && a.s.check.Fine? && Applied(a.s.write)
  }

  /** And such an email is FAILED once its sweeps are used up. */
  lemma MissingWorkEnds(c: Config, states: seq<State>, steps: seq<Step>, x: Id, n: nat)
    requires Run(c, states, steps) && Started(states[0]) && FittingRun(states, steps, x) && n < |steps|
    requires Absent(states[0], x)
    ensures SweepGivesUp(c, states[n], steps[n], x) && Missing(states[n], x) ==>
              var s' := states[n + 1];
              && x in s'.env.db && s'.env.db[x].status == Failed
              && x !in s'.env.keys.marked && Copies(s'.env.keys, x) == 0
  {
    hide Apply, Enabled, SweepEffect, LSweep, Marker.Inv, Marker.Fitting;
    if SweepGivesUp(c, states[n], steps[n], x) && Missing(states[n], x) {
      MarkerAtStart(states[0], x);
      MarkerHolds(c, states, steps, x, n);
      StepProjects(c, states[n], steps[n], x);
      Marker.MissingWorkEnds(c, Project(states[n], x), steps[n].s);
      var l := Project(states[n], x);
      assert LStep(c, l, Image(states[n], steps[n], x)) == LSweep(c, l, steps[n].s);
    }
  }

  // ----- conservation -----

  function Balance(s: State, x: Id): int {
    Retention.Balance(See(s.env, x), HistOf(s, x))
  }

  lemma BalanceStep(c: Config, s: State, a: Step, x: Id)
    requires Enabled(c, s, a)
    ensures Balance(Apply(c, s, a), x) == Balance(s, x)
  {
    StepProjects(c, s, a, x);
    Retention.Balanced(c, Project(s, x), Image(s, a, x));
  }

  lemma {:induction false} Conservation(c: Config, states: seq<State>, steps: seq<Step>, x: Id, n: nat)
    requires Run(c, states, steps) && Started(states[0]) && n <= |steps|
    ensures var h := HistOf(states[n], x);
            Copies(states[n].env.keys, x) == Copies(states[0].env.keys, x) + h.pushes - h.completes - h.collapses
  {
    hide Image, Apply, Enabled;
    if n == 0 {
      StartedProjects(states[0], x);
    } else {
      Conservation(c, states, steps, x, n - 1);
      BalanceStep(c, states[n - 1], steps[n - 1], x);
    }
  }

  // ----- no lost retry -----

  ghost predicate DisciplinedRun(states: seq<State>, steps: seq<Step>, x: Id)
    requires |states| == |steps| + 1
  {
    forall i :: 0 <= i < |steps| ==> Retention.Disciplined(Project(states[i], x), Image(states[i], steps[i], x))
  }

  lemma RetentionStep(c: Config, s: State, a: Step, x: Id)
    requires Enabled(c, s, a) && Exclusion.Inv(c, Project(s, x)) && Retention.Kept(Project(s, x))
    requires Retention.Disciplined(Project(s, x), Image(s, a, x))
    ensures Retention.Kept(Project(Apply(c, s, a), x))
  {
    StepProjects(c, s, a, x);
    Retention.KeptByAll(c, Project(s, x), Image(s, a, x));
  }

  lemma {:induction false} RetentionHolds(c: Config, states: seq<State>, steps: seq<Step>, x: Id, n: nat)
    requires Run(c, states, steps) && Started(states[0]) && DisciplinedRun(states, steps, x) && n <= |steps|
    ensures Retention.Kept(Project(states[n], x))
  {
    hide Exclusion.Inv, Retention.Kept, Retention.Disciplined, Project, Image, Apply, Enabled, Started;
    if n == 0 {
      InvariantsAtStart(c, states[0], x);
    } else {
      RetentionHolds(c, states, steps, x, n - 1);
      ExclusionHolds(c, states, steps, x, n - 1);
      RetentionStep(c, states[n - 1], steps[n - 1], x);
    }
  }

  /** As long as the reaper takes only copies whose worker is gone, `email:processing` holds a copy for
      every worker still holding one, and an email that a worker left FAILED is somewhere in Redis. */
  lemma NoLostRetry(c: Config, states: seq<State>, steps: seq<Step>, x: Id, n: nat)
    requires Run(c, states, steps) && Started(states[0]) && DisciplinedRun(states, steps, x) && n <= |steps|
    ensures var s := states[n];
            && |Retention.Holders(Project(s, x))| <= Lists.Count(s.env.keys.processing, x)
            && (x in s.env.db && s.env.db[x].status == Failed && HistOf(s, x).byWorker ==> Present(s.env.keys, x))
  {
    RetentionHolds(c, states, steps, x, n);
  }

  // ----- one copy for each disposition -----

  /** The step is a completion, a delay or a dead letter of `x` that takes effect. */
  predicate Disposes(s: State, a: Step, x: Id) {
    && a.Work? && a.wid in s.workers && s.workers[a.wid].Busy? && s.workers[a.wid].id == x
    && Disposing(s.workers[a.wid].pc) && Applied(a.o.fault)
  }

  /** However the workers interleave, each disposition finds a copy of its email in processing and takes exactly
      one out. */
  lemma EachTakesOneCopy(c: Config, states: seq<State>, steps: seq<Step>, x: Id, n: nat)
    requires Run(c, states, steps) && Started(states[0]) && DisciplinedRun(states, steps, x) && n < |steps|
    ensures Disposes(states[n], steps[n], x) ==>
              && Lists.Count(states[n].env.keys.processing, x) > 0
              && Lists.Count(states[n + 1].env.keys.processing, x) == Lists.Count(states[n].env.keys.processing, x) - 1
  {
    hide Apply, Enabled, Next, NoteWork;
    if Disposes(states[n], steps[n], x) {
      RetentionHolds(c, states, steps, x, n);
      StepProjects(c, states[n], steps[n], x);
      assert steps[n].wid in Retention.Holders(Project(states[n], x));
    }
  }

  // ----- spacing -----

  ghost predicate SingleRun(c: Config, states: seq<State>, steps: seq<Step>, x: Id)
    requires |states| == |steps| + 1
  {
    forall i :: 0 <= i < |steps| ==> Retention.Unpushed(c, Project(states[i], x), Image(states[i], steps[i], x))
  }

  lemma WaitsStep(c: Config, s: State, a: Step, x: Id)
    requires Enabled(c, s, a) && Retention.Waits(Project(s, x)) && Retention.Unpushed(c, Project(s, x), Image(s, a, x))
    ensures Retention.Waits(Project(Apply(c, s, a), x))
  {
    StepProjects(c, s, a, x);
    Retention.WaitsKept(c, Project(s, x), Image(s, a, x));
  }

  lemma {:induction false} WaitsHolds(c: Config, states: seq<State>, steps: seq<Step>, x: Id, n: nat)
    requires Run(c, states, steps) && Started(states[0]) && SingleRun(c, states, steps, x) && n <= |steps|
    requires Copies(states[0].env.keys, x) <= 1 && x !in states[0].env.keys.delayed && states[0].env.now >= 0
    ensures Retention.Waits(Project(states[n], x))
  {
    hide Retention.Unpushed, Image, Apply, Enabled;
    if n == 0 {
      StartedProjects(states[0], x);
    } else {
      WaitsHolds(c, states, steps, x, n - 1);
      WaitsStep(c, states[n - 1], steps[n - 1], x);
    }
  }

  /** The step is an SMTP attempt for `x`. */
  predicate Sends(s: State, a: Step, x: Id) {
    a.Work? && a.wid in s.workers && s.workers[a.wid].Busy? && s.workers[a.wid].id == x && s.workers[a.wid].pc.Send?
  }

  /** For an email with a single copy, an SMTP attempt never starts before the latest delay set for it. */
  lemma AttemptsAreSpaced(c: Config, states: seq<State>, steps: seq<Step>, x: Id, n: nat)
    requires Run(c, states, steps) && Started(states[0]) && SingleRun(c, states, steps, x)
    requires DisciplinedRun(states, steps, x)
    requires Copies(states[0].env.keys, x) <= 1 && x !in states[0].env.keys.delayed && states[0].env.now >= 0
    requires n < |steps| && Sends(states[n], steps[n], x)
    ensures states[n].env.now + steps[n].o.elapsed >= HistOf(states[n], x).notBefore
  {
    WaitsHolds(c, states, steps, x, n);
    RetentionHolds(c, states, steps, x, n);
    StepProjects(c, states[n], steps[n], x);
    Retention.AttemptWaits(c, Project(states[n], x), steps[n].wid, steps[n].o);
  }

  lemma {:induction false} NotBeforeSince(c: Config, states: seq<State>, steps: seq<Step>, x: Id, m: nat, n: nat)
    requires Run(c, states, steps) && Started(states[0]) && SingleRun(c, states, steps, x) && m <= n <= |steps|
    requires Copies(states[0].env.keys, x) <= 1 && x !in states[0].env.keys.delayed && states[0].env.now >= 0
    ensures Project(states[m], x).hist.notBefore <= Project(states[n], x).hist.notBefore
  {
    hide Retention.Waits, Retention.Unpushed, Project, Image, Apply, Enabled, Started, LStep, LEnabled;
    if m < n {
      NotBeforeSince(c, states, steps, x, m, n - 1);
      WaitsHolds(c, states, steps, x, n - 1);
      StepProjects(c, states[n - 1], steps[n - 1], x);
      Retention.NotBeforeGrows(c, Project(states[n - 1], x), Image(states[n - 1], steps[n - 1], x));
    }
  }

  /** Step `i` delays the email by `d` seconds. */
  predicate Delays(s: State, a: Step, x: Id, d: nat) {
    && a.Work? && a.wid in s.workers && s.workers[a.wid].Busy? && s.workers[a.wid].id == x
    && s.workers[a.wid].pc == MoveDelayed(d) && Applied(a.o.fault) && x in s.env.keys.processing
  }

  lemma DelayIsNoted(c: Config, s: State, a: Step, x: Id, d: nat)
    requires Enabled(c, s, a) && Delays(s, a, x, d)
    ensures Project(Apply(c, s, a), x).hist.notBefore == s.env.now + a.o.elapsed + d
  {
    hide WStep, NoteWork, Happens;
    Lists.CountIn(s.env.keys.processing, x);
    Retention.OnlyDelaysCount(c, See(s.env, x), HistOf(s, x), s.workers[a.wid], a.o);
    assert Apply(c, s, a) == ApplyWork(c, s, a.wid, a.o);
  }

  /** Between a delay of `d` seconds and any later SMTP attempt lie at least `d` seconds. */
  lemma RetriesAreSpaced(c: Config, states: seq<State>, steps: seq<Step>, x: Id, i: nat, n: nat, d: nat)
    requires Run(c, states, steps) && Started(states[0]) && SingleRun(c, states, steps, x)
    requires DisciplinedRun(states, steps, x)
    requires Copies(states[0].env.keys, x) <= 1 && x !in states[0].env.keys.delayed && states[0].env.now >= 0
    requires i < n < |steps|
    ensures Delays(states[i], steps[i], x, d) && Sends(states[n], steps[n], x) ==>
              states[n].env.now + steps[n].o.elapsed >= states[i].env.now + steps[i].o.elapsed + d
  {
    hide Apply, Enabled, Image;
    if Delays(states[i], steps[i], x, d) && Sends(states[n], steps[n], x) {
      DelayIsNoted(c, states[i], steps[i], x, d);
      NotBeforeSince(c, states, steps, x, i + 1, n);
      AttemptsAreSpaced(c, states, steps, x, n);
    }
  }

  // ----- spacing by the backoff -----

  /** The step is a committed FAILED write after an SMTP error for `x`. */
  predicate FailsSend(s: State, a: Step, x: Id) {
    && a.Work? && a.wid in s.workers && s.workers[a.wid].Busy? && s.workers[a.wid].id == x
    && s.workers[a.wid].pc.WriteFailed? && a.o.fault.Fine? && x in s.env.db
  }

  predicate Touches(a: Step, wid: nat) {
    match a
    case Work(k, _) => k == wid
    case Take(k, _) => k == wid
    case Crash(k) => k == wid
    case _ => false
  }

  /** Step `i` is the next call of the worker that makes step `k`, which does not crash in between. */
  predicate NextCall(steps: seq<Step>, k: nat, i: nat) {
    && k < i < |steps| && steps[k].Work? && steps[i].Work? && steps[i].wid == steps[k].wid
    && forall j :: k < j < i ==> !Touches(steps[j], steps[k].wid)
  }

  lemma UntouchedStays(c: Config, s: State, a: Step, wid: nat)
    requires Enabled(c, s, a) && !Touches(a, wid) && wid in s.workers
    ensures var s' := Apply(c, s, a); wid in s'.workers && s'.workers[wid] == s.workers[wid]
  {
    hide WStep, NoteWork, NoteSubmit, NoteSweep, SweepEffect, SubmitEffect, SubmitNext, Queue.Reap, Queue.MoveReady;
  }

  lemma {:induction false} WorkerWaits(c: Config, states: seq<State>, steps: seq<Step>, wid: nat, m: nat, n: nat)
    requires Run(c, states, steps) && m <= n <= |steps| && wid in states[m].workers
    requires forall j :: m <= j < n ==> !Touches(steps[j], wid)
    ensures wid in states[n].workers && states[n].workers[wid] == states[m].workers[wid]
  {
    hide Apply, Enabled, Touches;
    if m < n {
      WorkerWaits(c, states, steps, wid, m, n - 1);
      UntouchedStays(c, states[n - 1], steps[n - 1], wid);
    }
  }

  /** The worker after its FAILED write. */
  lemma FailureLeadsToDelay(c: Config, s: State, a: Step, x: Id)
    requires Enabled(c, s, a) && FailsSend(s, a, x)
    ensures var s' := Apply(c, s, a);
            && x in s'.env.db && s'.env.db[x].status == Failed && a.wid in s'.workers
            && s'.workers[a.wid] == s.workers[a.wid].(pc := MoveDelayed(BackoffDelay(c, s'.env.db[x].retryCount, a.o)))
            && (var seen := s.workers[a.wid].seen;
                seen.Some? && seen.value.retryCount == s.env.db[x].retryCount ==>
                  s'.env.db[x].retryCount == s.env.db[x].retryCount + 1)
  {
    hide BackoffDelay, NoteWork;
    hide NextId, Effect, Next, VStep;
    var w, e1 := s.workers[a.wid], s.env.(now := s.env.now + a.o.elapsed);
    assert Apply(c, s, a) == ApplyWork(c, s, a.wid, a.o);
    assert See(e1, x) == Later(See(s.env, x), a.o.elapsed);
    SeesStep(c, s.env, w, a.o, x);
    Retention.FailureSchedulesBackoff(c, See(s.env, x), w, a.o);
  }

  lemma HolderHasCopy(c: Config, states: seq<State>, steps: seq<Step>, x: Id, n: nat, wid: nat)
    requires Run(c, states, steps) && Started(states[0]) && DisciplinedRun(states, steps, x) && n <= |steps|
    requires wid in states[n].workers && states[n].workers[wid].Busy? && states[n].workers[wid].id == x
    requires states[n].workers[wid].pc.MoveDelayed?
    ensures x in states[n].env.keys.processing
  {
    RetentionHolds(c, states, steps, x, n);
    assert wid in Retention.Holders(Project(states[n], x));
    Lists.CountIn(states[n].env.keys.processing, x);
  }

  /** For an email with a single copy: when a worker has committed FAILED with a retry count of r, and its
      next call delays the copy, every later SMTP attempt starts at least `retry_delay * 2^(r - 1)` seconds
      after that, or the largest retry delay if there is one and it is smaller. */
  lemma RetriesAreSpacedByBackoff(c: Config, states: seq<State>, steps: seq<Step>, x: Id, k: nat, i: nat, n: nat)
    requires Run(c, states, steps) && Started(states[0])
    requires SingleRun(c, states, steps, x) && DisciplinedRun(states, steps, x)
    requires Copies(states[0].env.keys, x) <= 1 && x !in states[0].env.keys.delayed && states[0].env.now >= 0
    requires k < i < n < |steps|
    ensures NextCall(steps, k, i) && Applied(steps[i].o.fault)
            && FailsSend(states[k], steps[k], x) && Sends(states[n], steps[n], x) ==>
              && x in states[k + 1].env.db
              && var r := states[k + 1].env.db[x].retryCount;
                 var plain := c.retryDelay * Backoff.Pow2(Max(r - 1, 0));
                 var wait := if c.maxRetryDelay > 0 then Min(plain, c.maxRetryDelay) else plain;
                 states[n].env.now + steps[n].o.elapsed >= states[i].env.now + steps[i].o.elapsed + wait
  {
    hide Apply, Enabled, Image, BackoffDelay, Sends;
    if NextCall(steps, k, i) && Applied(steps[i].o.fault)
       && FailsSend(states[k], steps[k], x) && Sends(states[n], steps[n], x) {
      var wid := steps[k].wid;
      FailureLeadsToDelay(c, states[k], steps[k], x);
      WorkerWaits(c, states, steps, wid, k + 1, i);
      HolderHasCopy(c, states, steps, x, i, wid);
      var r := states[k + 1].env.db[x].retryCount;
      RetriesAreSpaced(c, states, steps, x, i, n, BackoffDelay(c, r, steps[k].o));
      BackoffDelayBounds(c, r, steps[k].o);
    }
  }

  // ----- requests are kept -----

  lemma UpdateKeepsRequests(db: Table, id: Id, base: Option<Record>, status: Status, increment: bool)
    ensures Idempotency.SameRequests(db, Update(db, id, base, status, increment))
  {
  }

  lemma CallKeepsRequests(c: Config, e: Env, w: Worker, o: Outcome)
    requires Running(w)
    ensures Idempotency.SameRequests(e.db, Effect(c, e, w, o).db)
  {
    hide Update;
    match w.pc
    case WriteSent => UpdateKeepsRequests(e.db, w.id, Basis(w, o), Status.Sent, false);
    case WriteDlq(_) => UpdateKeepsRequests(e.db, w.id, Basis(w, o), Status.Dlq, false);
    case WriteFailed => UpdateKeepsRequests(e.db, w.id, Basis(w, o), Failed, true);
    case WriteGeneric => UpdateKeepsRequests(e.db, w.id, None, Failed, true);
    case _ =>
  }

  lemma NothingChanges(db: Table)
    ensures Idempotency.SameRequests(db, db)
  {
  }

  lemma SweepKeepsRequests(c: Config, e: Env, id: Id, sw: Swept)
    requires id in e.db
    ensures Idempotency.SameRequests(e.db, SweepEffect(c, e, id, sw).db)
  {
  }

  /** No step but `create_email` adds a row, and none removes one or changes its caller, key or payload,
      so all of them are `Other` steps of `Idempotency`. */
  lemma StepKeepsRequests(c: Config, s: State, a: Step)
    requires Enabled(c, s, a) && !a.Create?
    ensures Idempotency.SameRequests(s.env.db, Apply(c, s, a).env.db)
  {
    hide Update, Effect, Next, NoteWork, NoteSubmit, NoteSweep, SweepEffect, SubmitNext, See;
    hide Queue.Reap, Queue.MoveReady, Idempotency.SameRequests;
    NothingChanges(s.env.db);
    match a
    case Work(wid, o) => CallKeepsRequests(c, s.env.(now := s.env.now + o.elapsed), s.workers[wid], o);
    case Admit(_, id, _) => UpdateKeepsRequests(s.env.db, id, None, Queued, false);
    case Submit(sid, _) => UpdateKeepsRequests(s.env.db, s.subs[sid].id, None, Failed, false);
    case Sweep(id, sw) => SweepKeepsRequests(c, s.env, id, sw);
    case _ =>
  }
}
