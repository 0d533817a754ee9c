/** The queued set as an index of the work that is somewhere in Redis. */
module Marker {
  import opened Base
  import opened Records
  import opened Process
  import opened OneEmail

  /** Some consumer can still reach the email, or it is a dead letter. */
  predicate Present(v: View) { v.queued + v.processing + v.dead > 0 || v.delayed.Some? }

  /** In `complete`: about to remove a copy or to clear the marker. */
  predicate Completing(w: Worker) { w.Busy? && (w.pc.Remove? || w.pc.RemoveVis? || w.pc.ClearMark?) }

  predicate Marking(w: Worker) { w.Busy? && w.pc.AddMark? }

  predicate Moves(v: View, w: Worker, v': View, w': Worker) {
    && (OpenView(v') ==> OpenView(v))
    && (Completing(w') ==> !OpenView(v') || Completing(w))
    && (Present(v) && !Present(v') ==> Completing(w))
    && (Present(v') ==> Present(v))
    && (v.marked && !v'.marked ==> Completing(w))
    && (!v.marked && v'.marked ==> Marking(w))
    && (Marking(w') ==> Present(v'))
  }

  predicate MovesWell(c: Config, v: View, w: Worker, o: Outcome)
    requires Running(w)
  {
    Moves(v, w, VStep(c, v, w, o), Next(c, Later(v, o.elapsed), w, o))
  }

  lemma MovesRead(c: Config, v: View, w: Worker, o: Outcome)
    requires Running(w) && w.pc.Read?
    ensures MovesWell(c, v, w, o)
  {
    assert Next(c, Later(v, o.elapsed), w, o) == AfterRead(c, Later(v, o.elapsed), w, o);
  }

  lemma MovesSend(c: Config, v: View, w: Worker, o: Outcome)
    requires Running(w) && w.pc.Send?
    ensures MovesWell(c, v, w, o)
  {
    assert Next(c, Later(v, o.elapsed), w, o) == AfterSend(w, o);
  }

  lemma MovesStarting(c: Config, v: View, w: Worker, o: Outcome)
    requires Running(w) && (w.pc.Refresh? || w.pc.Acquire? || w.pc.Cas?)
    ensures MovesWell(c, v, w, o)
  {
    hide ContendedDelay;
  }

  lemma MovesWriting(c: Config, v: View, w: Worker, o: Outcome)
    requires Running(w) && Writing(w.pc)
    ensures MovesWell(c, v, w, o)
  {
    hide BackoffDelay;
  }

  lemma MovesDisposing(c: Config, v: View, w: Worker, o: Outcome)
    requires Running(w) && Disposing(w.pc)
    ensures MovesWell(c, v, w, o)
  {
  }

  lemma MovesTidying(c: Config, v: View, w: Worker, o: Outcome)
    requires Running(w) && Tidying(w.pc)
    ensures MovesWell(c, v, w, o)
  {
  }

  ghost predicate Inv(l: Lone) {
    && (OpenView(l.view) && l.view.marked ==> Present(l.view))
    && (OpenView(l.view) && Present(l.view) ==> l.view.marked || l.hist.lost)
    && (forall k :: k in l.crew && Completing(l.crew[k]) ==> !OpenView(l.view))
    && (forall k :: k in l.crew && Marking(l.crew[k]) && OpenView(l.view) ==> Present(l.view))
    && (forall k :: k in l.subs && l.subs[k].ToMark? && OpenView(l.view) ==> Present(l.view))
  }

  predicate Crewed(crew: map<nat, Worker>, crew': map<nat, Worker>, wid: nat, w': Worker) {
    && (forall k :: k in crew' && k != wid ==> k in crew && crew'[k] == crew[k])
    && (wid in crew' ==> crew'[wid] == w')
  }

  lemma KeptByMove(l: Lone, l': Lone, wid: nat, w': Worker)
    requires Inv(l) && wid in l.crew && Moves(l.view, l.crew[wid], l'.view, w')
    requires Crewed(l.crew, l'.crew, wid, w') && l'.subs == l.subs
    requires l.hist.lost && !l'.hist.lost ==> l'.view.marked
    ensures Inv(l')
  {
  }

  lemma KeptByWork(c: Config, l: Lone, wid: nat, o: Outcome)
    requires LEnabled(c, l, Work(wid, o)) && Inv(l)
    ensures Inv(LWork(c, l, wid, o))
  {
    var w := l.crew[wid];
    if w.pc.Read? { MovesRead(c, l.view, w, o); }
    else if w.pc.Send? { MovesSend(c, l.view, w, o); }
    else if Starting(w.pc) { MovesStarting(c, l.view, w, o); }
    else if Writing(w.pc) { MovesWriting(c, l.view, w, o); }
    else if Disposing(w.pc) { MovesDisposing(c, l.view, w, o); }
    else { MovesTidying(c, l.view, w, o); }
    LostWhenMarked(c, l, wid, o);
    KeptByMove(l, LWork(c, l, wid, o), wid, Next(c, Later(l.view, o.elapsed), w, o));
  }

  lemma LostWhenMarked(c: Config, l: Lone, wid: nat, o: Outcome)
    requires LEnabled(c, l, Work(wid, o))
    ensures var l' := LWork(c, l, wid, o); l.hist.lost && !l'.hist.lost ==> l'.view.marked
  {
  }

  lemma KeptBySubmit(c: Config, l: Lone, sid: nat, f: Fault)
    requires LEnabled(c, l, Submit(sid, f)) && Inv(l)
    ensures Inv(LSubmit(l, sid, f))
  {
  }

  /** The sweeper acts on records that still wait: the status has not changed since its SELECT. */
  predicate Fitting(l: Lone, a: Act) { a.Sweep? ==> Skips(l.view, a.s) || OpenView(l.view) }

  lemma KeptBySweep(c: Config, l: Lone, s: Swept)
    requires LEnabled(c, l, Sweep(s)) && Inv(l) && Fitting(l, Sweep(s))
    ensures Inv(LSweep(c, l, s))
  {
  }

  lemma Kept(c: Config, l: Lone, a: Act)
    requires LEnabled(c, l, a) && Inv(l) && Fitting(l, a)
    ensures Inv(LStep(c, l, a))
  {
    match a
    case Work(wid, o) => KeptByWork(c, l, wid, o);
    case Submit(sid, f) => KeptBySubmit(c, l, sid, f);
    case Sweep(s) => KeptBySweep(c, l, s);
    case _ => KeptElsewhere(c, l, a);
  }

  lemma KeptElsewhere(c: Config, l: Lone, a: Act)
    requires LEnabled(c, l, a) && Inv(l) && !a.Work? && !a.Submit? && !a.Sweep?
    ensures Inv(LStep(c, l, a))
  {
  }

  // ----- pushes that are followed by their marker -----

  /** Every push that takes effect comes back normally, and its marker update takes effect. */
  predicate Whole(c: Config, l: Lone, a: Act) {
    match a
    case Submit(sid, f) =>
      sid in l.subs ==> (l.subs[sid].ToPush? && Applied(f) ==> f.Fine?) && (l.subs[sid].ToMark? ==> Applied(f))
    case Abort(sid) => sid in l.subs ==> !l.subs[sid].ToMark?
    case Sweep(s) => Sweeps(c, l.view, s) ==> s.push.Fine? && Applied(s.mark)
    case _ => true
  }

  /** Some submission is between the two commands of its enqueue. */
  predicate Enqueueing(l: Lone) { exists k :: k in l.subs && l.subs[k].ToMark? }

  lemma LostByWork(c: Config, l: Lone, wid: nat, o: Outcome)
    requires LEnabled(c, l, Work(wid, o))
    ensures LWork(c, l, wid, o).hist.lost ==> l.hist.lost
  {
    hide Next, VStep, Happens;
  }

  lemma LostBySubmit(c: Config, l: Lone, sid: nat, f: Fault)
    requires LEnabled(c, l, Submit(sid, f)) && Whole(c, l, Submit(sid, f)) && (l.hist.lost ==> Enqueueing(l))
    ensures var l' := LSubmit(l, sid, f); l'.hist.lost ==> Enqueueing(l')
  {
    var l' := LSubmit(l, sid, f);
    if l.subs[sid].ToPush? && f.Fine? {
      assert l'.subs[sid].ToMark?;
    } else if l'.hist.lost {
      var k :| k in l.subs && l.subs[k].ToMark?;
      assert l'.subs[k].ToMark?;
    }
  }

  /** A marker update is missing only while a submission is about to make it. */
  lemma LostOnlyEnqueueing(c: Config, l: Lone, a: Act)
    requires LEnabled(c, l, a) && Whole(c, l, a) && (l.hist.lost ==> Enqueueing(l))
    ensures var l' := LStep(c, l, a); l'.hist.lost ==> Enqueueing(l')
  {
    var l' := LStep(c, l, a);
    if a.Work? {
      LostByWork(c, l, a.wid, a.o);
    } else if a.Submit? {
      LostBySubmit(c, l, a.sid, a.f);
    }
    if l'.hist.lost && !a.Submit? {
      var k :| k in l.subs && l.subs[k].ToMark?;
      assert k in l'.subs && l'.subs[k].ToMark?;
    }
  }

  /** An email that waits and is nowhere in Redis is not marked, so a sweeper action that gets its push and its
      marker through brings exactly one copy back, whatever becomes of its write. */
  lemma MissingWorkReturns(c: Config, l: Lone, s: Swept)
    requires OpenView(l.view) && Inv(l) && !Present(l.view) && l.view.rec.value.sweeps < c.maxSweeps
    requires s.check.Fine? && s.push.Fine? && s.mark.Fine?
    ensures var l' := LSweep(c, l, s); var v := l'.view;
            && OpenView(v) && v.marked && !l'.hist.lost
            && v.queued == 1 && v.processing == 0 && v.dead == 0 && v.delayed.None?
  {
  }

  /** Once its sweeps are used up such an email is FAILED, if that write takes effect. */
  lemma MissingWorkEnds(c: Config, l: Lone, s: Swept)
    requires OpenView(l.view) && Inv(l) && !Present(l.view) && l.view.rec.value.sweeps >= c.maxSweeps
    requires s.check.Fine? && Applied(s.write)
    ensures var v := LSweep(c, l, s).view;
            v.rec.Some? && v.rec.value.status == Failed && !Present(v) && !v.marked
  {
  }
}
