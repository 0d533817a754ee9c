/** Where the retry budget stops: a worker that has outlived its lock overtakes the next one between that
    one's read and its compare-and-set. */
module Overtaking {
  import opened Base
  import opened Lists
  import opened Records
  import opened Queue
  import opened Process
  import opened OneEmail
  import Backoff
  import Exclusion
  import Payload
  import G = Guarantees
  import P = Pipeline

  /** Like `Budget.Timely`, but the lock is only known to last from the read to the compare-and-set. */
  predicate TimelyToCas(c: Config, l: Lone, a: Act) {
    match a
    case Work(wid, o) =>
      wid in l.crew && l.crew[wid].Busy? && (l.crew[wid].pc.Read? || l.crew[wid].pc.Cas?) ==>
        Exclusion.Live(c, l.view.now + o.elapsed, l.crew[wid])
    case _ => true
  }

  // ----- the run, seen from the email -----

  const ONE_RETRY := Config(1, 60, 0, 0, 120, 10, 600, 10)

  const FINE := Outcome(0, Fine, SmtpError, 0, true)

  function Rec(p: Payload.Stored, status: Status, retries: nat, audit: seq<Entry>): Record {
    Record(status, retries, 0, audit, "", None, p)
  }

  function Scene(now: int, queued: nat, lease: Option<Locks.Lease>, rec: Record, crew: map<nat, Worker>,
                 attempts: nat, next: Token): Lone
    requires queued <= 2
  {
    Lone(0, View(now, queued, 2 - queued, None, 0, true, 0, lease, Some(rec)), crew, map[],
         History(attempts, 0, 0, 0, 0, false, rec.status == Failed || rec.retryCount > 0, 0), next)
  }

  function W(pc: Pc, token: Token, at: int, seen: Option<Record>): Worker {
    Busy(0, pc, token, !pc.Refresh? && !pc.Acquire?, at, seen, false, false, false, false)
  }

  /** One email with two copies in the queue: worker 0 fails its send, outlives its lock, and writes
      FAILED between worker 1's read and compare-and-set. */
  function ActAt(i: nat): Act {
    if i == 0 then Take(0, true) else if i == 6 then Pass(120, 1) else if i == 7 then Take(1, true)
    else if i <= 5 || i == 11 then Work(0, FINE) else Work(1, FINE)
  }

  function SceneAt(p: Payload.Stored, i: nat): Lone {
    var q, s, f, t := Rec(p, Queued, 0, []), Rec(p, Sending, 0, []), Rec(p, Failed, 1, LOG), Rec(p, Sending, 1, LOG);
    var l0, l1 := Some(Locks.Lease(0, 120)), Some(Locks.Lease(1, 240));
    match i
    case 0 => Scene(0, 2, None, q, map[], 0, 0)
    case 1 => Scene(0, 1, None, q, map[0 := W(Refresh, 0, 0, None)], 0, 1)
    case 2 => Scene(0, 1, None, q, map[0 := W(Acquire, 0, 0, None)], 0, 1)
    case 3 => Scene(0, 1, l0, q, map[0 := W(Read, 0, 0, None)], 0, 1)
    case 4 => Scene(0, 1, l0, q, map[0 := W(Cas, 0, 0, Some(q))], 0, 1)
    case 5 => Scene(0, 1, l0, s, map[0 := W(Send, 0, 0, Some(q))], 0, 1)
    case 6 => Scene(0, 1, l0, s, map[0 := W(WriteFailed, 0, 0, Some(q))], 1, 1)
    case 7 => Scene(120, 1, l0, s, map[0 := W(WriteFailed, 0, 0, Some(q))], 1, 1)
    case 8 => Scene(120, 0, l0, s, map[0 := W(WriteFailed, 0, 0, Some(q)), 1 := W(Refresh, 1, 0, None)], 1, 2)
    case 9 => Scene(120, 0, l0, s, map[0 := W(WriteFailed, 0, 0, Some(q)), 1 := W(Acquire, 1, 0, None)], 1, 2)
    case 10 => Scene(120, 0, l1, s, map[0 := W(WriteFailed, 0, 0, Some(q)), 1 := W(Read, 1, 120, None)], 1, 2)
    case 11 => Scene(120, 0, l1, s, map[0 := W(WriteFailed, 0, 0, Some(q)), 1 := W(Cas, 1, 120, Some(s))], 1, 2)
    case 12 => Scene(120, 0, l1, f, map[0 := W(MoveDelayed(60), 0, 0, Some(q)), 1 := W(Cas, 1, 120, Some(s))], 1, 2)
    case 13 => Scene(120, 0, l1, t, map[0 := W(MoveDelayed(60), 0, 0, Some(q)), 1 := W(Send, 1, 120, Some(s))], 1, 2)
    case _ =>
      Scene(120, 0, l1, t, map[0 := W(MoveDelayed(60), 0, 0, Some(q)), 1 := W(WriteFailed, 1, 120, Some(s))], 2, 2)
  }

  const LOG := [Entry(Failed, Some(1))]

  predicate Plays(p: Payload.Stored, i: nat) {
    var l, a := SceneAt(p, i), ActAt(i);
    LEnabled(ONE_RETRY, l, a) && SceneAt(p, i + 1) == LStep(ONE_RETRY, l, a) && TimelyToCas(ONE_RETRY, l, a)
  }

  lemma Plays0(p: Payload.Stored)
    ensures Plays(p, 0)
  {
  }

  lemma Plays1(p: Payload.Stored)
    ensures Plays(p, 1)
  {
  }

  lemma Plays2(p: Payload.Stored)
    ensures Plays(p, 2)
  {
  }

  lemma Plays3(p: Payload.Stored)
    ensures Plays(p, 3)
  {
  }

  lemma Plays4(p: Payload.Stored)
    ensures Plays(p, 4)
  {
  }

  lemma Plays5(p: Payload.Stored)
    ensures Plays(p, 5)
  {
  }

  lemma Plays6(p: Payload.Stored)
    ensures Plays(p, 6)
  {
  }

  lemma Plays7(p: Payload.Stored)
    ensures Plays(p, 7)
  {
  }

  lemma Plays8(p: Payload.Stored)
    ensures Plays(p, 8)
  {
    hide BackoffDelay, ContendedDelay, Rewritten, LSubmit, LSweep, VSweep;
  }

  lemma Plays9(p: Payload.Stored)
    ensures Plays(p, 9)
  {
    hide BackoffDelay, ContendedDelay, Rewritten, LSubmit, LSweep, VSweep;
  }

  lemma Plays10(p: Payload.Stored)
    ensures Plays(p, 10)
  {
    hide BackoffDelay, ContendedDelay, Rewritten, LSubmit, LSweep, VSweep;
  }

  lemma FirstDelay()
    ensures BackoffDelay(ONE_RETRY, 1, FINE) == 60
  {
    assert Backoff.Pow2(0) == 1;
  }

  lemma Plays11(p: Payload.Stored)
    ensures Plays(p, 11)
  {
    hide BackoffDelay;
    FirstDelay();
    assert Rec(p, Queued, 0, []).audit + LOG == LOG;
  }

  lemma Plays12(p: Payload.Stored)
    ensures Plays(p, 12)
  {
    hide BackoffDelay, ContendedDelay, Rewritten, LSubmit, LSweep, VSweep;
  }

  lemma Plays13(p: Payload.Stored)
    ensures Plays(p, 13)
  {
    hide BackoffDelay, ContendedDelay, Rewritten, LSubmit, LSweep, VSweep;
  }

  lemma AllPlay(p: Payload.Stored, i: nat)
    requires i < 14
    ensures Plays(p, i)
  {
    hide Plays;
    match i
    case 0 => Plays0(p); case 1 => Plays1(p); case 2 => Plays2(p); case 3 => Plays3(p); case 4 => Plays4(p);
    case 5 => Plays5(p); case 6 => Plays6(p); case 7 => Plays7(p); case 8 => Plays8(p); case 9 => Plays9(p);
    case 10 => Plays10(p); case 11 => Plays11(p); case 12 => Plays12(p); case 13 => Plays13(p);
  }

  // ----- the run of the pipeline -----

  function StepAt(i: nat): P.Step {
    if i == 0 then P.Take(0, Fine) else if i == 6 then P.Tick(120) else if i == 7 then P.Take(1, Fine)
    else if i <= 5 || i == 11 then P.Work(0, FINE) else P.Work(1, FINE)
  }

  function Beginning(p: Payload.Stored): P.State {
    P.State(Env(0, Keys([0, 0], [], map[], map[], [], {0}, map[]), map[], map[0 := Rec(p, Queued, 0, [])]),
            map[], map[], map[], 0)
  }

  function StateAt(p: Payload.Stored, i: nat): P.State {
    if i == 0 then Beginning(p)
    else
      var s := StateAt(p, i - 1);
      if P.Enabled(ONE_RETRY, s, StepAt(i - 1)) then P.Apply(ONE_RETRY, s, StepAt(i - 1)) else s
  }

  /** What the projection does not show: the other ids, of which there are none. */
  ghost predicate Alone(s: P.State) {
    && (forall k :: k in s.workers ==> s.workers[k].Busy? && s.workers[k].id == 0)
    && (forall x :: x in s.env.keys.queue ==> x == 0)
  }

  ghost predicate Shows(p: Payload.Stored, s: P.State, i: nat) { Alone(s) && P.Project(s, 0) == SceneAt(p, i) }

  lemma BeginningShows(p: Payload.Stored)
    ensures Shows(p, Beginning(p), 0) && G.Started(Beginning(p))
  {
    var s := Beginning(p);
    assert s.env.keys.queue[1..] == [0] && s.env.keys.queue[1..][1..] == [];
    assert Count(s.env.keys.queue, 0) == 2;
    assert P.CrewOf(s.workers, 0) == map[] && P.SubsOf(s.subs, 0) == map[];
  }

  lemma CrewIsShown(p: Payload.Stored, s: P.State, i: nat, wid: nat)
    requires Shows(p, s, i)
    ensures wid in s.workers <==> wid in SceneAt(p, i).crew
    ensures wid in s.workers ==> s.workers[wid] == SceneAt(p, i).crew[wid]
  {
    hide SceneAt;
    assert P.CrewOf(s.workers, 0) == SceneAt(p, i).crew;
  }

  lemma QueueIsShown(p: Payload.Stored, s: P.State, i: nat)
    requires Shows(p, s, i) && SceneAt(p, i).view.queued > 0
    ensures s.env.keys.queue != [] && P.NextId(s.env) == 0
  {
    hide SceneAt;
    CountIn(s.env.keys.queue, 0);
    assert P.NextId(s.env) in s.env.keys.queue;
  }

  /** The step is possible, and is the step of the email that comes next. */
  lemma StepFits(p: Payload.Stored, s: P.State, i: nat)
    requires i < 14 && Shows(p, s, i) && LEnabled(ONE_RETRY, SceneAt(p, i), ActAt(i))
    ensures P.Enabled(ONE_RETRY, s, StepAt(i)) && P.Image(s, StepAt(i), 0) == ActAt(i)
  {
    hide SceneAt, Next, VStep;
    CrewIsShown(p, s, i, 0);
    CrewIsShown(p, s, i, 1);
    if i == 0 || i == 7 { QueueIsShown(p, s, i); }
    if i == 6 { NextIsOne(p); }
  }

  lemma NextIsOne(p: Payload.Stored)
    ensures SceneAt(p, 6).next == 1
  {
  }

  lemma CallsLeaveQueue(c: Config, e: Env, w: Worker, o: Outcome)
    requires Running(w)
    ensures WStep(c, e, w, o).env.keys.queue == e.keys.queue
  {
    hide Next, LRem1, Update, Transition, Locks.Acquire, Locks.Release;
  }

  lemma WorkStaysAlone(s: P.State, wid: nat, o: Outcome)
    requires wid in s.workers && Running(s.workers[wid]) && Alone(s)
    ensures Alone(P.ApplyWork(ONE_RETRY, s, wid, o))
  {
    hide WStep, NoteWork;
    var w, e1 := s.workers[wid], s.env.(now := s.env.now + o.elapsed);
    CallsLeaveQueue(ONE_RETRY, s.env, w, o);
    P.NextKeepsId(ONE_RETRY, See(e1, w.id), w, o);
    CallLeadsOn(s, wid, o);
  }

  lemma StaysAlone(s: P.State, a: P.Step)
    requires P.Enabled(ONE_RETRY, s, a) && Alone(s) && (a.Work? || a.Take? || a.Tick?)
    ensures Alone(P.Apply(ONE_RETRY, s, a))
  {
    hide P.ApplyWork, P.ApplyTake;
    if a.Work? {
      WorkStaysAlone(s, a.wid, a.o);
    } else if a.Take? {
      TakeStaysAlone(s, a.wid, a.f);
    }
  }

  lemma TakeStaysAlone(s: P.State, wid: nat, f: Fault)
    requires s.env.keys.queue != [] && Alone(s)
    ensures Alone(P.ApplyTake(s, wid, f))
  {
    var q, s' := s.env.keys.queue, P.ApplyTake(s, wid, f);
    assert q[|q| - 1] in q;
    assert Applied(f) ==> s'.env.keys.queue == q[..|q| - 1];
    forall x | x in s'.env.keys.queue ensures x == 0 { assert x in q; }
  }

  lemma CallLeadsOn(s: P.State, wid: nat, o: Outcome)
    requires wid in s.workers && Running(s.workers[wid])
    ensures var w, e1 := s.workers[wid], s.env.(now := s.env.now + o.elapsed);
            WStep(ONE_RETRY, s.env, w, o).worker == Next(ONE_RETRY, See(e1, w.id), w, o)
  {
    hide Next, Effect, See;
  }

  lemma {:induction false} RunShows(p: Payload.Stored, i: nat)
    requires i <= 14
    ensures Shows(p, StateAt(p, i), i)
  {
    hide SceneAt, Shows, P.Enabled, P.Apply, LEnabled, LStep, TimelyToCas;
    if i == 0 {
      BeginningShows(p);
    } else {
      RunShows(p, i - 1);
      ShowsNext(p, i - 1);
    }
  }

  lemma ShowsNext(p: Payload.Stored, i: nat)
    requires i < 14 && Shows(p, StateAt(p, i), i)
    ensures P.Enabled(ONE_RETRY, StateAt(p, i), StepAt(i)) && P.Image(StateAt(p, i), StepAt(i), 0) == ActAt(i)
    ensures StateAt(p, i + 1) == P.Apply(ONE_RETRY, StateAt(p, i), StepAt(i)) && Shows(p, StateAt(p, i + 1), i + 1)
  {
    hide SceneAt, P.Enabled, P.Apply, P.Image, P.Project, LEnabled, LStep, TimelyToCas, Alone;
    var s := StateAt(p, i);
    AllPlay(p, i);
    StepFits(p, s, i);
    P.StepProjects(ONE_RETRY, s, StepAt(i), 0);
    StaysAlone(s, StepAt(i));
  }

  ghost predicate TimelyToCasRun(c: Config, states: seq<P.State>, steps: seq<P.Step>, x: Id)
    requires |states| == |steps| + 1
  {
    forall i :: 0 <= i < |steps| ==> TimelyToCas(c, P.Project(states[i], x), P.Image(states[i], steps[i], x))
  }

  /** With one retry allowed, a run of the pipeline in which every lock lasts from the read to the
      compare-and-set makes two SMTP attempts. */
  lemma LockToCasIsTooShort(p: Payload.Stored)
    ensures exists states: seq<P.State>, steps: seq<P.Step> ::
              && G.Run(ONE_RETRY, states, steps) && G.Started(states[0])
              && TimelyToCasRun(ONE_RETRY, states, steps, 0)
              && P.HistOf(states[|steps|], 0).attempts == 2 > ONE_RETRY.maxRetries
  {
    hide P.Enabled, P.Apply, P.Image, P.Project, P.HistOf, TimelyToCas, SceneAt, Shows, StateAt, G.Started;
    var states, steps := seq(15, i requires 0 <= i < 15 => StateAt(p, i)), seq(14, i requires 0 <= i < 14 => StepAt(i));
    forall i | 0 <= i < 14
      ensures P.Enabled(ONE_RETRY, states[i], steps[i]) && states[i + 1] == P.Apply(ONE_RETRY, states[i], steps[i])
      ensures TimelyToCas(ONE_RETRY, P.Project(states[i], 0), P.Image(states[i], steps[i], 0))
    {
      RunShows(p, i);
      ShowsNext(p, i);
      TimelyAt(p, i);
    }
    assert G.Run(ONE_RETRY, states, steps);
    StartsWell(p);
    EndsWithTwo(p);
  }

  lemma TimelyAt(p: Payload.Stored, i: nat)
    requires i < 14 && Shows(p, StateAt(p, i), i) && P.Image(StateAt(p, i), StepAt(i), 0) == ActAt(i)
    ensures TimelyToCas(ONE_RETRY, P.Project(StateAt(p, i), 0), P.Image(StateAt(p, i), StepAt(i), 0))
  {
    hide SceneAt, P.Image, P.Project, LEnabled, LStep, TimelyToCas;
    AllPlay(p, i);
  }

  lemma StartsWell(p: Payload.Stored)
    ensures G.Started(StateAt(p, 0))
  {
    BeginningShows(p);
  }

  lemma EndsWithTwo(p: Payload.Stored)
    ensures P.HistOf(StateAt(p, 14), 0).attempts == 2
  {
    hide StateAt;
    RunShows(p, 14);
    assert SceneAt(p, 14).hist.attempts == 2;
    assert P.Project(StateAt(p, 14), 0).hist == P.HistOf(StateAt(p, 14), 0);
  }
}
