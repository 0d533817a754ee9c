/** The whole pipeline: any number of ids, workers and submissions over the two stores, with the
    reaper, the delayed mover and the sweeper, all interleaved. `Projects` shows that what happens to
    one id is exactly a step of `OneEmail`. */
module Pipeline {
  import opened Base
  import opened Lists
  import opened SortedSets
  import opened Records
  import opened Queue
  import opened Process
  import opened OneEmail

  datatype Submission = Submission(id: Id, next: Submitting)

  datatype State = State(
    env: Env, workers: map<nat, Worker>, subs: map<nat, Submission>, hist: map<Id, History>, next: Token)

  datatype Step =
    | Work(wid: nat, o: Outcome)
    | Take(wid: nat, f: Fault)
    | Crash(wid: nat)
    | Reap(batch: nat)
    | MoveReady(batch: nat)
    | Create(id: Id, rec: Record)
    | Admit(sid: nat, id: Id, f: Fault)
    | Submit(sid: nat, f: Fault)
    | Abort(sid: nat)
    | Sweep(id: Id, s: Swept)
    | Tick(elapsed: nat)

  const NO_HISTORY := History(0, 0, 0, 0, 0, false, false, 0)

  function HistOf(s: State, x: Id): History { if x in s.hist then s.hist[x] else NO_HISTORY }

  /** The workers busy with `x`. */
  function CrewOf(workers: map<nat, Worker>, x: Id): map<nat, Worker> {
    map k | k in workers && workers[k].Busy? && workers[k].id == x :: workers[k]
  }

  function SubsOf(subs: map<nat, Submission>, x: Id): map<nat, Submitting> {
    map k | k in subs && subs[k].id == x :: subs[k].next
  }

  /** The pipeline seen from `x`. */
  function Project(s: State, x: Id): Lone {
    Lone(x, See(s.env, x), CrewOf(s.workers, x), SubsOf(s.subs, x), HistOf(s, x), s.next)
  }

  // ----- steps -----

  /** The next call of a submission: `LPUSH`, `SADD`, or the FAILED write after an enqueue error. */
  function SubmitEffect(e: Env, b: Submission): Env {
    match b.next
    case ToPush => e.(keys := Push(e.keys, b.id))
    case ToMark => e.(keys := Mark(e.keys, b.id))
    case ToFail => e.(db := Update(e.db, b.id, None, Failed, false))
  }

  function SubmitNext(subs: map<nat, Submission>, sid: nat, f: Fault): map<nat, Submission>
    requires sid in subs
  {
    var b := subs[sid];
    match b.next
    case ToPush => subs[sid := b.(next := if f.Fine? then ToMark else ToFail)]
    case ToMark => if f.Fine? then subs - {sid} else subs[sid := b.(next := ToFail)]
    case ToFail => subs - {sid}
  }

  function NoteSubmit(h: History, v: View, next: Submitting, f: Fault): History {
    if !Applied(f) then h else
    match next
    case ToPush => h.(pushes := h.pushes + 1, lost := true)
    case ToMark => h.(lost := false)
    case ToFail => if v.rec.Some? then h.(byWorker := h.byWorker && v.rec.value.status == Failed) else h
  }

  function WithStatus(db: Table, id: Id, status: Status, sweeps: nat): Table
    requires id in db
  {
    db[id := db[id].(status := status, sweeps := sweeps)]
  }

  /** One record of a sweep: marker check, then FAILED, or push, marker and QUEUED. */
  function SweepEffect(c: Config, e: Env, id: Id, s: Swept): Env
    requires id in e.db
  {
    var n := e.db[id].sweeps;
    if s.check.Fails? || id in e.keys.marked then e
    else if n >= c.maxSweeps then
      if Applied(s.write) then e.(db := WithStatus(e.db, id, Failed, n)) else e
    else
      var e1 := if Applied(s.push) then e.(keys := Push(e.keys, id)) else e;
      if s.push.Fails? then e1 else
      var e2 := if Applied(s.mark) then e1.(keys := Mark(e1.keys, id)) else e1;
      if s.mark.Fails? then e2 else
      if Applied(s.write) then e2.(db := WithStatus(e2.db, id, Queued, n + 1)) else e2
  }

  function NoteSweep(c: Config, h: History, v: View, s: Swept): History
    requires v.rec.Some?
  {
    var v' := VSweep(c, v, s);
    var pushed := Sweeps(c, v, s);
    h.(pushes := if pushed then h.pushes + 1 else h.pushes,
       lost := if pushed then !v'.marked else h.lost,
       byWorker := h.byWorker && (SweptOut(c, v, s) ==> v.rec.value.status == Failed))
  }

  /** Nothing in the pipeline knows `id` yet: ids are fresh UUIDs. */
  predicate Unused(s: State, id: Id) {
    && id !in s.env.db && Copies(s.env.keys, id) == 0 && id !in s.env.keys.marked
    && CrewOf(s.workers, id) == map[] && SubsOf(s.subs, id) == map[]
  }

  predicate Enabled(c: Config, s: State, a: Step) {
    match a
    case Work(wid, _) => wid in s.workers && Running(s.workers[wid])
    case Take(wid, _) => wid !in s.workers && s.env.keys.queue != []
    case Crash(wid) => wid in s.workers && s.workers[wid].Busy?
    case Create(id, rec) => Unused(s, id) && rec.status == Pending && rec.retryCount == 0 && rec.sweeps == 0
    case Admit(sid, id, _) => sid !in s.subs && id in s.env.db && s.env.db[id].status == Pending
    case Submit(sid, _) => sid in s.subs
    case Abort(sid) => sid in s.subs
    case Sweep(id, _) => id in s.env.db
    case _ => true
  }

  /** `BLMOVE`; the worker that got a reply starts on the id. */
  function ApplyTake(s: State, wid: nat, f: Fault): State
    requires s.env.keys.queue != []
  {
    if !Applied(f) then s
    else s.(env := s.env.(keys := Queue.Take(s.env.keys)),
            workers := if f.Fine? then s.workers[wid := Start(NextId(s.env), s.next, Refresh)] else s.workers,
            next := s.next + 1)
  }

  function ApplyWork(c: Config, s: State, wid: nat, o: Outcome): State
    requires wid in s.workers && Running(s.workers[wid])
  {
    var w := s.workers[wid];
    var st := WStep(c, s.env, w, o);
    s.(env := st.env, workers := Manned(s.workers, wid, st.worker),
       hist := s.hist[w.id := NoteWork(HistOf(s, w.id), See(s.env, w.id), w, o)])
  }

  function ApplySubmit(s: State, sid: nat, f: Fault): State
    requires sid in s.subs
  {
    var b := s.subs[sid];
    s.(env := if Applied(f) then SubmitEffect(s.env, b) else s.env,
       subs := SubmitNext(s.subs, sid, f),
       hist := s.hist[b.id := NoteSubmit(HistOf(s, b.id), See(s.env, b.id), b.next, f)])
  }

  function Apply(c: Config, s: State, a: Step): State
    requires Enabled(c, s, a)
  {
    match a
    case Work(wid, o) => ApplyWork(c, s, wid, o)
    case Take(wid, f) => ApplyTake(s, wid, f)
    case Crash(wid) => s.(workers := s.workers - {wid})
    case Reap(batch) => s.(env := s.env.(keys := Queue.Reap(s.env.keys, s.env.now, batch)))
    case MoveReady(batch) => s.(env := s.env.(keys := Queue.MoveReady(s.env.keys, s.env.now, batch)))
    case Create(id, rec) => s.(env := s.env.(db := s.env.db[id := rec]))
    case Admit(sid, id, f) =>
      s.(env := if Applied(f) then s.env.(db := Update(s.env.db, id, None, Queued, false)) else s.env,
         subs := if f.Fine? then s.subs[sid := Submission(id, ToPush)] else s.subs)
    case Submit(sid, f) => ApplySubmit(s, sid, f)
    case Abort(sid) => s.(subs := s.subs - {sid})
    case Sweep(id, sw) =>
      s.(env := SweepEffect(c, s.env, id, sw),
         hist := s.hist[id := NoteSweep(c, HistOf(s, id), See(s.env, id), sw)])
    case Tick(elapsed) => s.(env := s.env.(now := s.env.now + elapsed))
  }

  // ----- what a step is for one id -----

  function Image(s: State, a: Step, x: Id): Act {
    match a
    case Work(wid, o) =>
      if wid in s.workers && s.workers[wid].Busy? && s.workers[wid].id == x then Act.Work(wid, o)
      else Pass(o.elapsed, s.next)
    case Take(wid, f) =>
      if s.env.keys.queue != [] && NextId(s.env) == x && Applied(f) then Act.Take(wid, f.Fine?)
      else Pass(0, if Applied(f) then s.next + 1 else s.next)
    case Crash(wid) =>
      if wid in s.workers && s.workers[wid].Busy? && s.workers[wid].id == x then Act.Crash(wid) else Pass(0, s.next)
    case Reap(batch) => if x in ZRange(s.env.keys.vis, s.env.now, batch) then Act.Reap else Pass(0, s.next)
    case MoveReady(batch) => if x in ZRange(s.env.keys.delayed, s.env.now, batch) then Ready else Pass(0, s.next)
    case Create(id, rec) => if id == x then Act.Create(rec) else Pass(0, s.next)
    case Admit(sid, id, f) => if id == x then Act.Admit(sid, f) else Pass(0, s.next)
    case Submit(sid, f) => if sid in s.subs && s.subs[sid].id == x then Act.Submit(sid, f) else Pass(0, s.next)
    case Abort(sid) => if sid in s.subs && s.subs[sid].id == x then Act.Abort(sid) else Pass(0, s.next)
    case Sweep(id, sw) => if id == x then Act.Sweep(sw) else Pass(0, s.next)
    case Tick(elapsed) => Pass(elapsed, s.next)
  }

  ghost predicate Projects(c: Config, s: State, a: Step, x: Id)
    requires Enabled(c, s, a)
  {
    var l, b := Project(s, x), Image(s, a, x);
    LEnabled(c, l, b) && Project(Apply(c, s, a), x) == LStep(c, l, b)
  }

  // ----- effects, id by id -----

  predicate SeesEffect(c: Config, e: Env, w: Worker, o: Outcome, x: Id)
    requires Running(w)
  {
    See(Effect(c, e, w, o), x) == if x == w.id then VEffect(c, See(e, x), w, o) else See(e, x)
  }

  lemma SeesStarting(c: Config, e: Env, w: Worker, o: Outcome, x: Id)
    requires Running(w) && Starting(w.pc)
    ensures SeesEffect(c, e, w, o, x)
  {
  }

  lemma SeesWriting(c: Config, e: Env, w: Worker, o: Outcome, x: Id)
    requires Running(w) && Writing(w.pc)
    ensures SeesEffect(c, e, w, o, x)
  {
  }

  lemma SeesRemove(c: Config, e: Env, w: Worker, o: Outcome, x: Id)
    requires Running(w) && w.pc.Remove?
    ensures SeesEffect(c, e, w, o, x)
  {
    DropCounts(e.keys, w.id, x);
  }

  lemma SeesMoveDlq(c: Config, e: Env, w: Worker, o: Outcome, x: Id)
    requires Running(w) && w.pc.MoveDlq?
    ensures SeesEffect(c, e, w, o, x)
  {
    ToDlqCounts(e.keys, w.id, x);
    CountIn(e.keys.processing, w.id);
  }

  lemma SeesMoveDelayed(c: Config, e: Env, w: Worker, o: Outcome, x: Id)
    requires Running(w) && w.pc.MoveDelayed?
    ensures SeesEffect(c, e, w, o, x)
  {
    ToDelayedCounts(e.keys, w.id, e.now + w.pc.delay, x);
    CountIn(e.keys.processing, w.id);
  }

  lemma SeesTidying(c: Config, e: Env, w: Worker, o: Outcome, x: Id)
    requires Running(w) && Tidying(w.pc)
    ensures SeesEffect(c, e, w, o, x)
  {
  }

  lemma SeesStep(c: Config, e: Env, w: Worker, o: Outcome, x: Id)
    requires Running(w)
    ensures See(WStep(c, e, w, o).env, x)
            == if x == w.id then VStep(c, See(e, x), w, o) else Later(See(e, x), o.elapsed)
  {
    var e1 := e.(now := e.now + o.elapsed);
    assert See(e1, x) == Later(See(e, x), o.elapsed);
    if Applied(o.fault) {
      if Starting(w.pc) { SeesStarting(c, e1, w, o, x); }
      else if Writing(w.pc) { SeesWriting(c, e1, w, o, x); }
      else if Tidying(w.pc) { SeesTidying(c, e1, w, o, x); }
      else if w.pc.Remove? { SeesRemove(c, e1, w, o, x); }
      else if w.pc.MoveDlq? { SeesMoveDlq(c, e1, w, o, x); }
      else { SeesMoveDelayed(c, e1, w, o, x); }
    }
  }

  lemma NextKeepsId(c: Config, v: View, w: Worker, o: Outcome)
    requires Running(w)
    ensures var w' := Next(c, v, w, o); w'.Busy? ==> w'.id == w.id
  {
    if Starting(w.pc) { NextKeepsIdStarting(c, v, w, o); } else { NextKeepsIdLater(c, v, w, o); }
  }

  lemma NextKeepsIdStarting(c: Config, v: View, w: Worker, o: Outcome)
    requires Running(w) && Starting(w.pc)
    ensures var w' := Next(c, v, w, o); w'.Busy? ==> w'.id == w.id
  {
  }

  lemma NextKeepsIdLater(c: Config, v: View, w: Worker, o: Outcome)
    requires Running(w) && !Starting(w.pc)
    ensures var w' := Next(c, v, w, o); w'.Busy? ==> w'.id == w.id
  {
    hide BackoffDelay, Rewritten;
  }

  lemma CrewManned(workers: map<nat, Worker>, wid: nat, w': Worker, x: Id)
    requires wid in workers && workers[wid].Busy? && (w'.Busy? ==> w'.id == workers[wid].id)
    ensures CrewOf(Manned(workers, wid, w'), x)
            == if workers[wid].id == x then Manned(CrewOf(workers, x), wid, w') else CrewOf(workers, x)
  {
  }

  lemma WorkedHere(c: Config, s: State, wid: nat, o: Outcome, x: Id)
    requires Enabled(c, s, Step.Work(wid, o)) && s.workers[wid].id == x
    ensures LEnabled(c, Project(s, x), Act.Work(wid, o))
    ensures Project(ApplyWork(c, s, wid, o), x) == LWork(c, Project(s, x), wid, o)
  {
    hide Effect, Next, NoteWork, VEffect, Happens;
    var w, v := s.workers[wid], Later(See(s.env, x), o.elapsed);
    SeesStep(c, s.env, w, o, x);
    NextKeepsId(c, v, w, o);
    CrewManned(s.workers, wid, Next(c, v, w, o), x);
    assert See(s.env.(now := s.env.now + o.elapsed), x) == v;
    assert CrewOf(s.workers, x)[wid] == w;
  }

  lemma WorkedElsewhere(c: Config, s: State, wid: nat, o: Outcome, x: Id)
    requires Enabled(c, s, Step.Work(wid, o)) && s.workers[wid].id != x
    ensures var l := Project(s, x); Project(ApplyWork(c, s, wid, o), x) == l.(view := Later(l.view, o.elapsed))
  {
    hide Effect, Next, NoteWork, VStep, Happens;
    var w := s.workers[wid];
    var v := See(s.env.(now := s.env.now + o.elapsed), w.id);
    var w' := Next(c, v, w, o);
    var s' := ApplyWork(c, s, wid, o);
    assert See(s'.env, x) == Later(See(s.env, x), o.elapsed) by {
      SeesStep(c, s.env, w, o, x);
    }
    assert CrewOf(s'.workers, x) == CrewOf(s.workers, x) by {
      NextKeepsId(c, v, w, o);
      CrewManned(s.workers, wid, w', x);
    }
    assert HistOf(s', x) == HistOf(s, x);
  }

  lemma ProjectsWork(c: Config, s: State, wid: nat, o: Outcome, x: Id)
    requires Enabled(c, s, Step.Work(wid, o))
    ensures Projects(c, s, Step.Work(wid, o), x)
  {
    assert Apply(c, s, Step.Work(wid, o)) == ApplyWork(c, s, wid, o);
    if s.workers[wid].id == x {
      WorkedHere(c, s, wid, o, x);
      assert LStep(c, Project(s, x), Act.Work(wid, o)) == LWork(c, Project(s, x), wid, o);
    } else {
      WorkedElsewhere(c, s, wid, o, x);
    }
  }

  lemma CrewHired(workers: map<nat, Worker>, wid: nat, w': Worker, x: Id)
    requires wid !in workers && w'.Busy?
    ensures CrewOf(workers[wid := w'], x) == if w'.id == x then CrewOf(workers, x)[wid := w'] else CrewOf(workers, x)
  {
  }

  function NextId(e: Env): Id
    requires e.keys.queue != []
  {
    e.keys.queue[|e.keys.queue| - 1]
  }

  lemma SeesTake(e: Env, x: Id)
    requires e.keys.queue != []
    ensures See(e.(keys := Queue.Take(e.keys)), x) == if NextId(e) == x then VTake(See(e, x)) else See(e, x)
    ensures NextId(e) == x ==> See(e, x).queued > 0
  {
    TakeCounts(e.keys, x);
  }

  lemma TakenHere(c: Config, s: State, wid: nat, f: Fault, x: Id)
    requires Enabled(c, s, Step.Take(wid, f)) && Applied(f) && NextId(s.env) == x
    ensures Project(ApplyTake(s, wid, f), x) == LTake(Project(s, x), wid, f.Fine?)
  {
    SeesTake(s.env, x);
    CrewHired(s.workers, wid, Start(x, s.next, Refresh), x);
  }

  lemma TakenElsewhere(c: Config, s: State, wid: nat, f: Fault, x: Id)
    requires Enabled(c, s, Step.Take(wid, f)) && Applied(f) && NextId(s.env) != x
    ensures Project(ApplyTake(s, wid, f), x) == Project(s, x).(next := s.next + 1)
  {
    SeesTake(s.env, x);
    CrewHired(s.workers, wid, Start(NextId(s.env), s.next, Refresh), x);
  }

  lemma ProjectsTake(c: Config, s: State, wid: nat, f: Fault, x: Id)
    requires Enabled(c, s, Step.Take(wid, f))
    ensures Projects(c, s, Step.Take(wid, f), x)
  {
    hide SubsOf;
    var l := Project(s, x);
    assert Apply(c, s, Step.Take(wid, f)) == ApplyTake(s, wid, f);
    if Applied(f) && NextId(s.env) == x {
      TakenHere(c, s, wid, f, x);
      SeesTake(s.env, x);
      assert LStep(c, l, Act.Take(wid, f.Fine?)) == LTake(l, wid, f.Fine?);
    } else if Applied(f) {
      TakenElsewhere(c, s, wid, f, x);
    }
  }

  lemma ProjectsCrash(c: Config, s: State, wid: nat, x: Id)
    requires Enabled(c, s, Step.Crash(wid))
    ensures Projects(c, s, Step.Crash(wid), x)
  {
    assert CrewOf(s.workers - {wid}, x)
        == if s.workers[wid].id == x then CrewOf(s.workers, x) - {wid} else CrewOf(s.workers, x);
  }

  lemma SeesReap(e: Env, batch: nat, x: Id)
    ensures See(e.(keys := Queue.Reap(e.keys, e.now, batch)), x)
            == if x in ZRange(e.keys.vis, e.now, batch) then VReap(See(e, x)) else See(e, x)
  {
    ReapCounts(e.keys, e.now, batch, x);
  }

  lemma ProjectsReap(c: Config, s: State, batch: nat, x: Id)
    requires Enabled(c, s, Step.Reap(batch))
    ensures Projects(c, s, Step.Reap(batch), x)
  {
    SeesReap(s.env, batch, x);
  }

  lemma SeesMoveReady(e: Env, batch: nat, x: Id)
    ensures var v := See(e, x); var ready := x in ZRange(e.keys.delayed, e.now, batch);
            && (ready ==> v.delayed.Some? && v.delayed.value <= e.now)
            && See(e.(keys := Queue.MoveReady(e.keys, e.now, batch)), x)
               == if ready then v.(delayed := None, queued := v.queued + 1) else v
  {
    MoveReadyCounts(e.keys, e.now, batch, x);
  }

  lemma ProjectsMoveReady(c: Config, s: State, batch: nat, x: Id)
    requires Enabled(c, s, Step.MoveReady(batch))
    ensures Projects(c, s, Step.MoveReady(batch), x)
  {
    SeesMoveReady(s.env, batch, x);
  }

  lemma ProjectsCreate(c: Config, s: State, id: Id, rec: Record, x: Id)
    requires Enabled(c, s, Step.Create(id, rec))
    ensures Projects(c, s, Step.Create(id, rec), x)
  {
  }

  lemma ProjectsAdmit(c: Config, s: State, sid: nat, id: Id, f: Fault, x: Id)
    requires Enabled(c, s, Step.Admit(sid, id, f))
    ensures Projects(c, s, Step.Admit(sid, id, f), x)
  {
    assert SubsOf(s.subs[sid := Submission(id, ToPush)], x)
        == if id == x then SubsOf(s.subs, x)[sid := ToPush] else SubsOf(s.subs, x);
  }

  lemma SeesSubmit(e: Env, b: Submission, x: Id)
    ensures var v := See(e, x);
            See(SubmitEffect(e, b), x)
            == if b.id != x then v
               else match b.next
                    case ToPush => v.(queued := v.queued + 1)
                    case ToMark => v.(marked := true)
                    case ToFail => VWrite(v, None, Failed, false)
  {
    match b.next
    case ToPush => SeesPush(e, b.id, x);
    case ToMark => SeesMark(e, b.id, x);
    case ToFail =>
  }

  lemma SubmittedHere(c: Config, s: State, sid: nat, f: Fault, x: Id)
    requires Enabled(c, s, Step.Submit(sid, f)) && s.subs[sid].id == x
    ensures LEnabled(c, Project(s, x), Act.Submit(sid, f))
    ensures Project(ApplySubmit(s, sid, f), x) == LSubmit(Project(s, x), sid, f)
  {
    hide SubmitEffect, SubmitNext, CrewOf;
    SeesSubmit(s.env, s.subs[sid], x);
    SubsAdvance(s.subs, sid, f, x);
    assert SubsOf(s.subs, x)[sid] == s.subs[sid].next;
  }

  lemma SubmittedElsewhere(c: Config, s: State, sid: nat, f: Fault, x: Id)
    requires Enabled(c, s, Step.Submit(sid, f)) && s.subs[sid].id != x
    ensures Project(ApplySubmit(s, sid, f), x) == Project(s, x)
  {
    hide SubmitEffect, SubmitNext, CrewOf, VWrite, NoteSubmit;
    SeesSubmit(s.env, s.subs[sid], x);
    SubsAdvance(s.subs, sid, f, x);
  }

  lemma ProjectsSubmit(c: Config, s: State, sid: nat, f: Fault, x: Id)
    requires Enabled(c, s, Step.Submit(sid, f))
    ensures Projects(c, s, Step.Submit(sid, f), x)
  {
    hide SubmitEffect, SubmitNext, CrewOf, NoteSubmit;
    assert Apply(c, s, Step.Submit(sid, f)) == ApplySubmit(s, sid, f);
    if s.subs[sid].id == x {
      SubmittedHere(c, s, sid, f, x);
      assert LStep(c, Project(s, x), Act.Submit(sid, f)) == LSubmit(Project(s, x), sid, f);
    } else {
      SubmittedElsewhere(c, s, sid, f, x);
    }
  }

  lemma SubsAdvance(subs: map<nat, Submission>, sid: nat, f: Fault, x: Id)
    requires sid in subs
    ensures SubsOf(SubmitNext(subs, sid, f), x)
            == if subs[sid].id != x then SubsOf(subs, x)
               else match subs[sid].next
                    case ToPush => SubsOf(subs, x)[sid := if f.Fine? then ToMark else ToFail]
                    case ToMark => if f.Fine? then SubsOf(subs, x) - {sid} else SubsOf(subs, x)[sid := ToFail]
                    case ToFail => SubsOf(subs, x) - {sid}
  {
  }

  lemma ProjectsAbort(c: Config, s: State, sid: nat, x: Id)
    requires Enabled(c, s, Step.Abort(sid))
    ensures Projects(c, s, Step.Abort(sid), x)
  {
    assert SubsOf(s.subs - {sid}, x)
        == if s.subs[sid].id == x then SubsOf(s.subs, x) - {sid} else SubsOf(s.subs, x);
  }

  lemma SeesPush(e: Env, id: Id, x: Id)
    ensures See(e.(keys := Push(e.keys, id)), x)
            == if x == id then See(e, x).(queued := See(e, x).queued + 1) else See(e, x)
  {
    PushCounts(e.keys, id, x);
  }

  lemma SeesMark(e: Env, id: Id, x: Id)
    ensures See(e.(keys := Mark(e.keys, id)), x) == if x == id then See(e, x).(marked := true) else See(e, x)
  {
  }

  lemma SeesStatus(e: Env, id: Id, status: Status, sweeps: nat, x: Id)
    requires id in e.db
    ensures See(e.(db := WithStatus(e.db, id, status, sweeps)), x)
            == if x == id then VSetStatus(See(e, x), status, sweeps) else See(e, x)
  {
  }

  lemma SeesSweep(c: Config, e: Env, id: Id, s: Swept, x: Id)
    requires id in e.db
    ensures See(SweepEffect(c, e, id, s), x) == if x == id then VSweep(c, See(e, x), s) else See(e, x)
  {
    var n := e.db[id].sweeps;
    if s.check.Fine? && id !in e.keys.marked {
      if n >= c.maxSweeps {
        SeesStatus(e, id, Failed, n, x);
      } else {
        var e1 := if Applied(s.push) then e.(keys := Push(e.keys, id)) else e;
        var e2 := if Applied(s.mark) then e1.(keys := Mark(e1.keys, id)) else e1;
        SeesPush(e, id, x);
        SeesMark(e1, id, x);
        SeesStatus(e2, id, Queued, n + 1, x);
      }
    }
  }

  lemma ProjectsSweep(c: Config, s: State, id: Id, sw: Swept, x: Id)
    requires Enabled(c, s, Step.Sweep(id, sw))
    ensures Projects(c, s, Step.Sweep(id, sw), x)
  {
    SeesSweep(c, s.env, id, sw, x);
  }

  /** Refinement: for every id, a step of the pipeline is a step of that single email. */
  lemma StepProjects(c: Config, s: State, a: Step, x: Id)
    requires Enabled(c, s, a)
    ensures Projects(c, s, a, x)
  {
    match a
    case Work(wid, o) => ProjectsWork(c, s, wid, o, x);
    case Take(wid, f) => ProjectsTake(c, s, wid, f, x);
    case Crash(wid) => ProjectsCrash(c, s, wid, x);
    case Reap(batch) => ProjectsReap(c, s, batch, x);
    case MoveReady(batch) => ProjectsMoveReady(c, s, batch, x);
    case Create(id, rec) => ProjectsCreate(c, s, id, rec, x);
    case Admit(sid, id, f) => ProjectsAdmit(c, s, sid, id, f, x);
    case Submit(sid, f) => ProjectsSubmit(c, s, sid, f, x);
    case Abort(sid) => ProjectsAbort(c, s, sid, x);
    case Sweep(id, sw) => ProjectsSweep(c, s, id, sw, x);
    case Tick(_) =>
  }
}
