/** SMTP attempts stay within `max_retries` without any help from the lock, as long as no worker wins the
    compare-and-set with an out-of-date retry count. */
module Currency {
  import opened Records
  import opened Process
  import opened OneEmail
  import opened Budget
  import Fence

  /** The worker's copy has at least the row's retry count. */
  predicate UpToDate(v: View, w: Worker) {
    w.Busy? && w.seen.Some? && v.rec.Some? && v.rec.value.retryCount <= w.seen.value.retryCount
  }

  predicate Flying(w: Worker) { Fence.InFlight(Fence.RoleOf(w)) }

  predicate Holds(c: Config, v: View, attempts: nat, w: Worker) {
    && (w.Busy? && w.pc.Cas? ==> w.seen.Some? && w.seen.value.retryCount < c.maxRetries)
    && (Flying(w) ==> UpToDate(v, w))
    && (w.Busy? && w.pc.Send? ==> v.rec.Some? && attempts <= v.rec.value.retryCount < c.maxRetries)
  }

  /** A compare-and-set hits only for a worker whose copy is up to date. */
  predicate Current(l: Lone, a: Act) {
    a.Work? && a.wid in l.crew && l.crew[a.wid].Busy? && l.crew[a.wid].pc.Cas? && Hit(l.view) ==>
      UpToDate(l.view, l.crew[a.wid])
  }

  ghost predicate Inv(c: Config, l: Lone) {
    && Bound(c, l.view, l.hist.attempts)
    && forall k :: k in l.crew ==> Holds(c, l.view, l.hist.attempts, l.crew[k])
  }

  function Attempts(attempts: nat, w: Worker, o: Outcome): nat
    requires Running(w)
  {
    if Happens(w, o) == Attempted || Happens(w, o) == Accepted then attempts + 1 else attempts
  }

  predicate Good(c: Config, v: View, attempts: nat, w: Worker, o: Outcome)
    requires Running(w)
  {
    var v', w', n := VStep(c, v, w, o), Next(c, Later(v, o.elapsed), w, o), Attempts(attempts, w, o);
    && Bound(c, v', n) && Holds(c, v', n, w')
    && (!Flying(w) ==> n == attempts && SameCount(v, v'))
  }

  /** The row is still there with its retry count. */
  predicate SameCount(v: View, v': View) {
    v.rec.Some? == v'.rec.Some? && (v.rec.Some? ==> v'.rec.value.retryCount == v.rec.value.retryCount)
  }

  lemma GoodRead(c: Config, v: View, attempts: nat, w: Worker, o: Outcome)
    requires Running(w) && w.pc.Read? && Bound(c, v, attempts) && Fence.NoGenericFault(w, o)
    ensures Good(c, v, attempts, w, o)
  {
    assert Next(c, Later(v, o.elapsed), w, o) == AfterRead(c, Later(v, o.elapsed), w, o);
  }

  lemma GoodCas(c: Config, v: View, attempts: nat, w: Worker, o: Outcome)
    requires Running(w) && w.pc.Cas? && Bound(c, v, attempts) && Holds(c, v, attempts, w)
    requires Hit(v) ==> UpToDate(v, w)
    requires Fence.NoGenericFault(w, o)
    ensures Good(c, v, attempts, w, o)
  {
  }

  lemma GoodSend(c: Config, v: View, attempts: nat, w: Worker, o: Outcome)
    requires Running(w) && w.pc.Send? && Bound(c, v, attempts) && Holds(c, v, attempts, w)
    requires Fence.Within(v, {Sending, Status.Dlq})
    ensures Good(c, v, attempts, w, o)
  {
  }

  lemma GoodOutcome(c: Config, v: View, attempts: nat, w: Worker, o: Outcome)
    requires Running(w) && Flying(w) && Writing(w.pc) && Bound(c, v, attempts) && Holds(c, v, attempts, w)
    requires Fence.NoGenericFault(w, o)
    ensures Good(c, v, attempts, w, o)
  {
    hide BackoffDelay;
  }

  lemma GoodStart(c: Config, v: View, attempts: nat, w: Worker, o: Outcome)
    requires Running(w) && (w.pc.Refresh? || w.pc.Acquire?) && Bound(c, v, attempts)
    ensures Good(c, v, attempts, w, o)
  {
    hide ContendedDelay;
  }

  lemma GoodGivingUp(c: Config, v: View, attempts: nat, w: Worker, o: Outcome)
    requires Running(w) && !Flying(w) && (w.pc.WriteDlq? || w.pc.CountDbError?) && Bound(c, v, attempts)
    requires Fence.NoGenericFault(w, o) && (w.pc.WriteDlq? ==> v.rec.Some?)
    ensures Good(c, v, attempts, w, o)
  {
    hide BackoffDelay;
  }

  lemma GoodDisposing(c: Config, v: View, attempts: nat, w: Worker, o: Outcome)
    requires Running(w) && Disposing(w.pc) && Bound(c, v, attempts)
    ensures Good(c, v, attempts, w, o)
  {
  }

  lemma GoodTidying(c: Config, v: View, attempts: nat, w: Worker, o: Outcome)
    requires Running(w) && Tidying(w.pc) && Bound(c, v, attempts)
    ensures Good(c, v, attempts, w, o)
  {
  }

  lemma GoodStep(c: Config, l: Lone, wid: nat, o: Outcome)
    requires LEnabled(c, l, Work(wid, o)) && Fence.Inv(l) && Inv(c, l)
    requires Fence.Gentle(l, Work(wid, o)) && Current(l, Work(wid, o))
    ensures Good(c, l.view, l.hist.attempts, l.crew[wid], o)
  {
    hide Good, Bound, Holds, UpToDate, Fence.NoGenericFault;
    var v, n, w := l.view, l.hist.attempts, l.crew[wid];
    if w.pc.Refresh? || w.pc.Acquire? { GoodStart(c, v, n, w, o); }
    else if w.pc.Read? { GoodRead(c, v, n, w, o); }
    else if w.pc.Cas? { GoodCas(c, v, n, w, o); }
    else if w.pc.Send? { GoodSend(c, v, n, w, o); }
    else if w.pc.CountDbError? || w.pc == WriteDlq(false) { GoodGivingUp(c, v, n, w, o); }
    else if Writing(w.pc) { GoodOutcome(c, v, n, w, o); }
    else if Disposing(w.pc) { GoodDisposing(c, v, n, w, o); }
    else { GoodTidying(c, v, n, w, o); }
  }

  lemma KeptByWork(c: Config, l: Lone, wid: nat, o: Outcome)
    requires LEnabled(c, l, Work(wid, o)) && Fence.Inv(l) && Inv(c, l)
    requires Fence.Gentle(l, Work(wid, o)) && Current(l, Work(wid, o))
    ensures Inv(c, LWork(c, l, wid, o))
  {
    hide Next, VStep, Happens, Bound, SameCount, UpToDate;
    GoodStep(c, l, wid, o);
    var l' := LWork(c, l, wid, o);
    forall k | k in l'.crew && k != wid ensures Holds(c, l'.view, l'.hist.attempts, l'.crew[k]) {
      OthersStay(c, l, wid, k, o);
    }
  }

  /** No other worker is in flight while this one is; what the others know of the row stays true. */
  lemma OthersStay(c: Config, l: Lone, wid: nat, k: nat, o: Outcome)
    requires LEnabled(c, l, Work(wid, o)) && Fence.Inv(l) && Inv(c, l) && k in l.crew && k != wid
    requires Good(c, l.view, l.hist.attempts, l.crew[wid], o)
    ensures Holds(c, VStep(c, l.view, l.crew[wid], o), Attempts(l.hist.attempts, l.crew[wid], o), l.crew[k])
  {
    hide Next, VStep, Happens, Bound, Attempts;
    if Flying(l.crew[k]) {
      assert !Flying(l.crew[wid]);
    }
  }

  lemma KeptByOthers(c: Config, l: Lone, l': Lone)
    requires Inv(c, l) && l'.hist.attempts == l.hist.attempts
    requires || l'.view.rec == l.view.rec
             || (Hit(l.view) && l'.view.rec.Some? && l'.view.rec.value.retryCount == l.view.rec.value.retryCount)
             || (l.view.rec.None? && l'.view.rec.Some? && l'.crew == map[])
    requires forall k :: k in l'.crew ==>
               (k in l.crew && l'.crew[k] == l.crew[k]) || (l'.crew[k].Busy? && l'.crew[k].pc.Refresh?)
    ensures Inv(c, l')
  {
  }

  lemma Kept(c: Config, l: Lone, a: Act)
    requires LEnabled(c, l, a) && Fence.Inv(l) && Inv(c, l) && Fence.Gentle(l, a) && Current(l, a)
    ensures Inv(c, LStep(c, l, a))
  {
    if a.Work? {
      KeptByWork(c, l, a.wid, a.o);
    } else {
      KeptByOthers(c, l, LStep(c, l, a));
    }
  }

  /** A lock that outlasts a worker's calls keeps its copy up to date. */
  lemma LockKeepsCurrent(c: Config, l: Lone, a: Act)
    requires LEnabled(c, l, a) && Budget.Inv(c, l) && Timely(c, l, a)
    ensures Current(l, a)
  {
    hide LEnabled, Bound;
    if a.Work? && a.wid in l.crew && l.crew[a.wid].Busy? && l.crew[a.wid].pc.Cas? {
      assert Knows(c, l.view, l.hist.attempts, l.crew[a.wid]);
    }
  }
}
