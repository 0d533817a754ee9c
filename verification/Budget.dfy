/** SMTP attempts stay within `max_retries`. */
module Budget {
  import opened Base
  import opened Records
  import opened Process
  import opened OneEmail
  import opened Exclusion

  predicate Spent(s: Status) { s == Sending || s == Status.Sent || s == Status.Dlq }

  /** Every attempt but the latest has been counted in `retry_count`; the latest still shows in the status. */
  predicate Bound(c: Config, v: View, attempts: nat) {
    && attempts <= c.maxRetries
    && match v.rec
       case None => attempts == 0
       case Some(rec) => attempts <= rec.retryCount + (if Spent(rec.status) then 1 else 0)
  }

  /** What a worker in the section may rely on while its lock lasts. */
  predicate Knows(c: Config, v: View, attempts: nat, w: Worker) {
    w.Busy? &&
    match w.pc
    case Cas => Sees(v, w) && v.rec.value.retryCount < c.maxRetries
    case Send => Sees(v, w) && attempts <= v.rec.value.retryCount < c.maxRetries && v.rec.value.status == Sending
    case WriteSent => Sees(v, w) && v.rec.value.status == Sending
    case WriteFailed => Sees(v, w) && v.rec.value.status == Sending
    case WriteDlq(_) => Sees(v, w)
    case _ => true
  }

  predicate Sees(v: View, w: Worker) {
    w.Busy? && w.seen.Some? && v.rec.Some? && w.seen.value.retryCount == v.rec.value.retryCount
  }

  predicate MovesWell(c: Config, v: View, attempts: nat, w: Worker, o: Outcome)
    requires Running(w)
  {
    var v', w' := VStep(c, v, w, o), Next(c, Later(v, o.elapsed), w, o);
    var ev := Happens(w, o);
    var attempts' := if ev == Attempted || ev == Accepted then attempts + 1 else attempts;
    Bound(c, v', attempts') && (InSection(w') ==> Knows(c, v', attempts', w'))
  }

  lemma MovesRead(c: Config, v: View, attempts: nat, w: Worker, o: Outcome)
    requires Running(w) && w.pc.Read? && Bound(c, v, attempts)
    ensures MovesWell(c, v, attempts, w, o)
  {
    assert Next(c, Later(v, o.elapsed), w, o) == AfterRead(c, Later(v, o.elapsed), w, o);
  }

  lemma MovesCas(c: Config, v: View, attempts: nat, w: Worker, o: Outcome)
    requires Running(w) && w.pc.Cas? && Bound(c, v, attempts) && Knows(c, v, attempts, w)
    ensures MovesWell(c, v, attempts, w, o)
  {
  }

  lemma MovesSend(c: Config, v: View, attempts: nat, w: Worker, o: Outcome)
    requires Running(w) && w.pc.Send? && Bound(c, v, attempts) && Knows(c, v, attempts, w)
    ensures MovesWell(c, v, attempts, w, o)
  {
  }

  lemma MovesWriting(c: Config, v: View, attempts: nat, w: Worker, o: Outcome)
    requires Running(w) && Writing(w.pc) && !w.pc.CountDbError? && Bound(c, v, attempts) && Knows(c, v, attempts, w)
    ensures MovesWell(c, v, attempts, w, o)
  {
  }

  /** Outside the section a call changes neither the record nor the attempts. */
  predicate Idles(c: Config, v: View, w: Worker, o: Outcome)
    requires Running(w)
  {
    && VStep(c, v, w, o).rec == v.rec
    && Happens(w, o) != Attempted && Happens(w, o) != Accepted
    && var w' := Next(c, Later(v, o.elapsed), w, o); (InSection(w') ==> w'.pc.Read?)
  }

  lemma IdlesOutside(c: Config, v: View, w: Worker, o: Outcome)
    requires Running(w) && !InSection(w)
    ensures Idles(c, v, w, o)
  {
    if Starting(w.pc) { IdlesStarting(c, v, w, o); }
    else if Disposing(w.pc) || w.pc.CountDbError? { IdlesDisposing(c, v, w, o); }
    else { IdlesTidying(c, v, w, o); }
  }

  lemma IdlesStarting(c: Config, v: View, w: Worker, o: Outcome)
    requires Running(w) && (w.pc.Refresh? || w.pc.Acquire?)
    ensures Idles(c, v, w, o)
  {
  }

  lemma IdlesDisposing(c: Config, v: View, w: Worker, o: Outcome)
    requires Running(w) && (Disposing(w.pc) || w.pc.CountDbError?)
    ensures Idles(c, v, w, o)
  {
  }

  lemma IdlesTidying(c: Config, v: View, w: Worker, o: Outcome)
    requires Running(w) && Tidying(w.pc)
    ensures Idles(c, v, w, o)
  {
  }

  /** No worker makes a call of the section after its lock's time to live, and neither a submission's
      FAILED write nor a sweeper action that does not skip the record comes to a status from which the
      email may not be sent any more. */
  predicate Timely(c: Config, l: Lone, a: Act) {
    match a
    case Work(wid, o) => wid in l.crew && InSection(l.crew[wid]) ==> Live(c, l.view.now + o.elapsed, l.crew[wid])
    case Submit(sid, _) => sid in l.subs && l.subs[sid] == ToFail && l.view.rec.Some? ==> Hit(l.view)
    case Sweep(s) => Skips(l.view, s) || Hit(l.view)
    case _ => true
  }

  ghost predicate Inv(c: Config, l: Lone) {
    && Bound(c, l.view, l.hist.attempts)
    && forall k :: k in l.crew && InSection(l.crew[k]) && Live(c, l.view.now, l.crew[k])
         ==> Knows(c, l.view, l.hist.attempts, l.crew[k])
  }

  lemma KeptInSection(c: Config, l: Lone, wid: nat, o: Outcome)
    requires LEnabled(c, l, Work(wid, o)) && Exclusion.Inv(c, l) && Inv(c, l) && Timely(c, l, Work(wid, o))
    requires InSection(l.crew[wid])
    ensures Inv(c, LWork(c, l, wid, o))
  {
    hide Next;
    var w, a, l' := l.crew[wid], l.hist.attempts, LWork(c, l, wid, o);
    if w.pc.Read? { MovesRead(c, l.view, a, w, o); }
    else if w.pc.Cas? { MovesCas(c, l.view, a, w, o); }
    else if w.pc.Send? { MovesSend(c, l.view, a, w, o); }
    else { MovesWriting(c, l.view, a, w, o); }
    Alone(c, l, wid, l.view.now + o.elapsed);
  }

  /** While one worker of the section is within its time to live, every other one is not. */
  lemma Alone(c: Config, l: Lone, wid: nat, now: int)
    requires Exclusion.Inv(c, l) && wid in l.crew && InSection(l.crew[wid]) && now >= l.view.now
    requires Live(c, now, l.crew[wid])
    ensures forall k :: k in l.crew && k != wid && InSection(l.crew[k]) ==> !Live(c, now, l.crew[k])
  {
  }

  lemma KeptOutside(c: Config, l: Lone, wid: nat, o: Outcome)
    requires LEnabled(c, l, Work(wid, o)) && Inv(c, l) && !InSection(l.crew[wid])
    ensures Inv(c, LWork(c, l, wid, o))
  {
    IdlesOutside(c, l.view, l.crew[wid], o);
    UnchangedKnowledge(c, l, LWork(c, l, wid, o));
  }

  lemma UnchangedKnowledge(c: Config, l: Lone, l': Lone)
    requires Inv(c, l) && l'.hist.attempts == l.hist.attempts && l'.view.now >= l.view.now
    requires || l'.view.rec == l.view.rec
             || (Hit(l.view) && l'.view.rec.Some? && l'.view.rec.value.retryCount == l.view.rec.value.retryCount)
             || (l.view.rec.None? && l'.view.rec.Some? && l'.crew == map[])
    requires forall k :: k in l'.crew && InSection(l'.crew[k]) ==>
               l'.crew[k].pc.Read? || (k in l.crew && l'.crew[k] == l.crew[k])
    ensures Inv(c, l')
  {
  }

  lemma Kept(c: Config, l: Lone, a: Act)
    requires LEnabled(c, l, a) && Exclusion.Inv(c, l) && Inv(c, l) && Timely(c, l, a)
    ensures Inv(c, LStep(c, l, a))
  {
    if a.Work? {
      if InSection(l.crew[a.wid]) { KeptInSection(c, l, a.wid, a.o); } else { KeptOutside(c, l, a.wid, a.o); }
    } else {
      UnchangedKnowledge(c, l, LStep(c, l, a));
    }
  }

  // ----- when the count is kept -----

  /** The three calls from the compare-and-set to the FAILED write of a worker that nobody disturbs. If every
      attempt was counted before, every one is counted after a failed send exactly when the record that the
      worker read has at least the retry count of the row at the compare-and-set. */
  lemma FailedSendIsCountedIff(c: Config, v: View, w: Worker, cas: Outcome, send: Outcome, write: Outcome)
    requires Running(w) && w.pc == Cas && cas.fault.Fine? && Hit(Later(v, cas.elapsed)) && send.smtp.SmtpError?
    requires write.fault.Fine? && write.cached && w.seen.Some? && w.seen.value.retryCount < c.maxRetries
    ensures var v1, w1 := VStep(c, v, w, cas), Next(c, Later(v, cas.elapsed), w, cas);
            Running(w1) && w1.pc == Send &&
            var v2, w2 := VStep(c, v1, w1, send), Next(c, Later(v1, send.elapsed), w1, send);
            Running(w2) && w2.pc == WriteFailed &&
            (Bound(c, VStep(c, v2, w2, write), v.rec.value.retryCount + 1)
             <==> v.rec.value.retryCount <= w.seen.value.retryCount)
  {
    var v1, w1 := VStep(c, v, w, cas), Next(c, Later(v, cas.elapsed), w, cas);
    assert w1 == w.(pc := Send);
    var v2, w2 := VStep(c, v1, w1, send), Next(c, Later(v1, send.elapsed), w1, send);
    assert w2 == w.(pc := WriteFailed);
    assert v2.rec == Some(v.rec.value.(status := Sending));
    assert VStep(c, v2, w2, write).rec.value.retryCount == w.seen.value.retryCount + 1;
  }
}
