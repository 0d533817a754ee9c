/** Copies are conserved, failed emails keep one, and delays are respected. */
module Retention {
  import opened Base
  import opened Records
  import opened Process
  import opened OneEmail

  function Copies(v: View): nat { v.queued + v.processing + v.dead + (if v.delayed.Some? then 1 else 0) }

  // ----- conservation -----

  /** Copies in Redis, plus copies completed, plus copies merged by a delay, less copies pushed. */
  function Balance(v: View, h: History): int { Copies(v) + h.completes + h.collapses - h.pushes }

  lemma BalancedDisposing(c: Config, v: View, h: History, w: Worker, o: Outcome)
    requires Running(w) && Disposing(w.pc)
    ensures Balance(VStep(c, v, w, o), NoteWork(h, v, w, o)) == Balance(v, h)
  {
  }

  lemma BalancedCalls(c: Config, v: View, h: History, w: Worker, o: Outcome)
    requires Running(w) && !Disposing(w.pc)
    ensures Balance(VStep(c, v, w, o), NoteWork(h, v, w, o)) == Balance(v, h)
  {
  }

  lemma Balanced(c: Config, l: Lone, a: Act)
    requires LEnabled(c, l, a)
    ensures Balance(LStep(c, l, a).view, LStep(c, l, a).hist) == Balance(l.view, l.hist)
  {
    if a.Work? {
      if Disposing(l.crew[a.wid].pc) {
        BalancedDisposing(c, l.view, l.hist, l.crew[a.wid], a.o);
      } else {
        BalancedCalls(c, l.view, l.hist, l.crew[a.wid], a.o);
      }
    } else if a.Sweep? {
      BalancedSweep(c, l, a.s);
    }
  }

  lemma BalancedSweep(c: Config, l: Lone, s: Swept)
    requires LEnabled(c, l, Sweep(s))
    ensures Balance(LSweep(c, l, s).view, LSweep(c, l, s).hist) == Balance(l.view, l.hist)
  {
  }

  // ----- no lost retry -----

  predicate Removing(w: Worker) { w.Busy? && w.pc.Remove? }

  ghost function Holders(l: Lone): set<nat> { set k | k in l.crew && Holding(l.crew[k]) }

  ghost function Removers(l: Lone): set<nat> { set k | k in l.crew && Removing(l.crew[k]) }

  /** A worker wrote FAILED and nobody has changed that since. */
  predicate WorkerFailed(v: View, h: History) { v.rec.Some? && v.rec.value.status == Failed && h.byWorker }

  /** The reaper only takes a copy that no worker holds any more. */
  ghost predicate Disciplined(l: Lone, a: Act) {
    a.Reap? && l.view.processing > 0 ==> l.view.processing > |Holders(l)|
  }

  ghost predicate Kept(l: Lone) {
    && |Holders(l)| <= l.view.processing
    && (WorkerFailed(l.view, l.hist) ==> Copies(l.view) > |Removers(l)|)
  }

  /** A worker's call, as far as copies are concerned. */
  predicate Moves(v: View, h: History, w: Worker, v': View, h': History, w': Worker) {
    && (Holding(w') ==> Holding(w))
    && v'.processing == v.processing - (if Holding(w) && !Holding(w') && v'.processing != v.processing then 1 else 0)
    && (Removing(w') ==> !WorkerFailed(v', h'))
    && (WorkerFailed(v', h') && !WorkerFailed(v, h) ==> Holding(w') && !Removing(w) && !Removing(w'))
    && (|| Copies(v') == Copies(v)
        || (Removing(w) && !Removing(w') && Copies(v') == Copies(v) - 1)
        || (!Removing(w) && Holding(w) && !Holding(w') && Copies(v') > v'.processing))
    && (Removing(w) ==> !Holding(w'))
  }

  predicate MovesWell(c: Config, v: View, h: History, w: Worker, o: Outcome)
    requires Running(w)
  {
    Moves(v, h, w, VStep(c, v, w, o), NoteWork(h, v, w, o), Next(c, Later(v, o.elapsed), w, o))
  }

  lemma MovesRead(c: Config, v: View, h: History, w: Worker, o: Outcome)
    requires Running(w) && w.pc.Read?
    ensures MovesWell(c, v, h, w, o)
  {
    assert Next(c, Later(v, o.elapsed), w, o) == AfterRead(c, Later(v, o.elapsed), w, o);
  }

  lemma MovesStarting(c: Config, v: View, h: History, w: Worker, o: Outcome)
    requires Running(w) && Starting(w.pc) && !w.pc.Read?
    ensures MovesWell(c, v, h, w, o)
  {
    hide ContendedDelay;
  }

  lemma MovesWriting(c: Config, v: View, h: History, w: Worker, o: Outcome)
    requires Running(w) && Writing(w.pc)
    ensures MovesWell(c, v, h, w, o)
  {
    hide BackoffDelay;
  }

  lemma MovesDisposing(c: Config, v: View, h: History, w: Worker, o: Outcome)
    requires Running(w) && Disposing(w.pc)
    ensures MovesWell(c, v, h, w, o)
  {
  }

  lemma MovesTidying(c: Config, v: View, h: History, w: Worker, o: Outcome)
    requires Running(w) && Tidying(w.pc)
    ensures MovesWell(c, v, h, w, o)
  {
  }

  ghost predicate Crewed(crew: map<nat, Worker>, crew': map<nat, Worker>, wid: nat, w': Worker) {
    && wid in crew
    && (forall k :: k != wid ==> (k in crew' <==> k in crew))
    && (forall k :: k in crew' && k != wid ==> crew'[k] == crew[k])
    && (wid in crew' ==> crew'[wid] == w')
    && (Running(w') ==> wid in crew')
  }

  lemma {:induction false} SmallerSet(a: set<nat>, b: set<nat>)
    requires a <= b
    ensures |a| <= |b|
    ensures a != b ==> |a| < |b|
  {
    assert b == a + (b - a);
    assert |b| == |a| + |b - a|;
  }

  lemma HoldersAfter(l: Lone, l': Lone, wid: nat, w': Worker)
    requires Crewed(l.crew, l'.crew, wid, w') && (Holding(w') ==> Holding(l.crew[wid]))
    ensures Holders(l') == if Holding(w') then Holders(l) else Holders(l) - {wid}
    ensures Removers(l') == if Removing(w') && Running(w') then Removers(l) + {wid} else Removers(l) - {wid}
    ensures Removers(l') <= Holders(l') + {wid}
  {
  }

  lemma KeptByMove(l: Lone, l': Lone, wid: nat, w': Worker)
    requires Kept(l) && Crewed(l.crew, l'.crew, wid, w') && Moves(l.view, l.hist, l.crew[wid], l'.view, l'.hist, w')
    requires forall k :: k in l'.crew ==> Running(l'.crew[k])
    ensures Kept(l')
  {
    var w := l.crew[wid];
    HoldersAfter(l, l', wid, w');
    assert Removers(l') <= Holders(l');
    SmallerSet(Removers(l'), Holders(l'));
    if Holding(w) && !Holding(w') { assert wid in Holders(l); }
    if WorkerFailed(l'.view, l'.hist) {
      if WorkerFailed(l.view, l.hist) {
        if Removing(w) { assert wid in Removers(l); }
        SmallerSet(Removers(l'), Removers(l));
      } else {
        assert wid in Holders(l') - Removers(l');
      }
    }
  }

  lemma KeptByWork(c: Config, l: Lone, wid: nat, o: Outcome)
    requires LEnabled(c, l, Work(wid, o)) && Kept(l) && forall k :: k in l.crew ==> Running(l.crew[k])
    ensures Kept(LWork(c, l, wid, o))
  {
    var w := l.crew[wid];
    if w.pc.Read? { MovesRead(c, l.view, l.hist, w, o); }
    else if Starting(w.pc) { MovesStarting(c, l.view, l.hist, w, o); }
    else if Writing(w.pc) { MovesWriting(c, l.view, l.hist, w, o); }
    else if Disposing(w.pc) { MovesDisposing(c, l.view, l.hist, w, o); }
    else { MovesTidying(c, l.view, l.hist, w, o); }
    KeptByMove(l, LWork(c, l, wid, o), wid, Next(c, Later(l.view, o.elapsed), w, o));
  }

  lemma HoldersHired(l: Lone, wid: nat, ok: bool)
    requires wid !in l.crew
    ensures Removers(LTake(l, wid, ok)) == Removers(l)
    ensures Holders(LTake(l, wid, ok)) == if ok then Holders(l) + {wid} else Holders(l)
  {
    hide VTake;
  }

  lemma KeptByTake(c: Config, l: Lone, wid: nat, ok: bool)
    requires LEnabled(c, l, Take(wid, ok)) && Kept(l)
    ensures Kept(LTake(l, wid, ok))
  {
    hide Holders, Removers, Holding, Removing;
    HoldersHired(l, wid, ok);
  }

  lemma KeptByCrash(c: Config, l: Lone, wid: nat)
    requires LEnabled(c, l, Crash(wid)) && Kept(l)
    ensures Kept(LStep(c, l, Crash(wid)))
  {
    var l' := LStep(c, l, Crash(wid));
    SmallerSet(Holders(l'), Holders(l));
    SmallerSet(Removers(l'), Removers(l));
  }

  lemma KeptByOthers(c: Config, l: Lone, a: Act)
    requires LEnabled(c, l, a) && Kept(l) && Disciplined(l, a) && !a.Work? && !a.Take? && !a.Crash?
    ensures Kept(LStep(c, l, a))
  {
    var l' := LStep(c, l, a);
    assert Holders(l') == Holders(l) && Removers(l') == Removers(l);
  }

  lemma KeptByAll(c: Config, l: Lone, a: Act)
    requires LEnabled(c, l, a) && Kept(l) && Disciplined(l, a) && forall k :: k in l.crew ==> Running(l.crew[k])
    ensures Kept(LStep(c, l, a))
  {
    match a
    case Work(wid, o) => KeptByWork(c, l, wid, o);
    case Take(wid, ok) => KeptByTake(c, l, wid, ok);
    case Crash(wid) => KeptByCrash(c, l, wid);
    case _ => KeptByOthers(c, l, a);
  }

  // ----- spacing -----

  /** The latest delay is still running, or over. */
  predicate Waits(l: Lone) {
    && Copies(l.view) <= 1
    && match l.view.delayed
       case Some(score) => score == l.hist.notBefore
       case None => l.view.now >= l.hist.notBefore
  }

  /** The email is not pushed again. */
  predicate Unpushed(c: Config, l: Lone, a: Act) {
    LEnabled(c, l, a) ==> LStep(c, l, a).hist.pushes == l.hist.pushes
  }

  predicate Postpones(v: View, h: History, v': View, h': History) {
    && v'.now >= v.now
    && ((v'.delayed == v.delayed && h'.notBefore == h.notBefore) || v'.delayed == Some(h'.notBefore))
    && h'.completes >= h.completes && h'.collapses >= h.collapses
  }

  lemma PostponesDisposing(c: Config, v: View, h: History, w: Worker, o: Outcome)
    requires Running(w) && Disposing(w.pc)
    ensures Postpones(v, h, VStep(c, v, w, o), NoteWork(h, v, w, o))
  {
  }

  lemma PostponesCalls(c: Config, v: View, h: History, w: Worker, o: Outcome)
    requires Running(w) && !Disposing(w.pc)
    ensures Postpones(v, h, VStep(c, v, w, o), NoteWork(h, v, w, o))
  {
  }

  lemma WaitsKept(c: Config, l: Lone, a: Act)
    requires LEnabled(c, l, a) && Waits(l) && Unpushed(c, l, a)
    ensures Waits(LStep(c, l, a))
  {
    Balanced(c, l, a);
    if a.Work? {
      if Disposing(l.crew[a.wid].pc) {
        PostponesDisposing(c, l.view, l.hist, l.crew[a.wid], a.o);
      } else {
        PostponesCalls(c, l.view, l.hist, l.crew[a.wid], a.o);
      }
    }
  }

  lemma OnlyDelaysCount(c: Config, v: View, h: History, w: Worker, o: Outcome)
    requires Running(w)
    ensures NoteWork(h, v, w, o).notBefore
            == if w.pc.MoveDelayed? && v.processing > 0 && Applied(o.fault) then v.now + o.elapsed + w.pc.delay
               else h.notBefore
  {
    hide Happens;
  }

  /** A single copy is delayed again only after its latest delay is over. */
  lemma NotBeforeGrows(c: Config, l: Lone, a: Act)
    requires LEnabled(c, l, a) && Waits(l)
    ensures LStep(c, l, a).hist.notBefore >= l.hist.notBefore
  {
    hide VStep, Next, NoteWork, VSweep;
    if a.Work? { OnlyDelaysCount(c, l.view, l.hist, l.crew[a.wid], a.o); }
  }

  /** A failed send whose FAILED write is committed is delayed by the backoff of its new retry count. */
  lemma FailureSchedulesBackoff(c: Config, v: View, w: Worker, o: Outcome)
    requires Running(w) && w.pc.WriteFailed? && o.fault.Fine? && v.rec.Some?
    ensures var v', w' := VStep(c, v, w, o), Next(c, Later(v, o.elapsed), w, o);
            && v'.rec.Some? && v'.rec.value.status == Failed
            && w' == w.(pc := MoveDelayed(BackoffDelay(c, v'.rec.value.retryCount, o)))
            && (w.seen.Some? && w.seen.value.retryCount == v.rec.value.retryCount ==>
                  v'.rec.value.retryCount == v.rec.value.retryCount + 1)
  {
    hide BackoffDelay;
  }

  /** No SMTP attempt starts before the latest delay is over. */
  lemma AttemptWaits(c: Config, l: Lone, wid: nat, o: Outcome)
    requires LEnabled(c, l, Work(wid, o)) && Waits(l) && Kept(l) && l.crew[wid].pc.Send?
    ensures l.view.now + o.elapsed >= l.hist.notBefore
  {
    assert wid in Holders(l);
  }
}
