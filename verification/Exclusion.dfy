/** What the per-email lock guarantees to the workers that hold it. */
module Exclusion {
  import opened Base
  import opened Records
  import opened Locks
  import opened Process
  import opened OneEmail

  /** From reading the record to writing the outcome of the send. */
  predicate InSection(w: Worker) {
    w.Busy? && (|| w.pc.Read? || w.pc.Cas? || w.pc.Send?
                || w.pc.WriteSent? || w.pc.WriteFailed? || w.pc.WriteDlq? || w.pc.WriteGeneric?)
  }

  predicate Live(c: Config, now: int, w: Worker) { w.Busy? && now < w.acquiredAt + c.lockTtl }

  predicate Leases(c: Config, v: View, w: Worker) {
    w.Busy? && v.lease == Some(Lease(w.token, w.acquiredAt + c.lockTtl))
  }

  predicate Free(v: View, now: int) { v.lease.None? || v.lease.value.expiry <= now }

  /** A worker's call, as far as the lock is concerned. */
  predicate Moves(c: Config, v: View, w: Worker, v': View, w': Worker)
  {
    && w.Busy? && v'.now >= v.now
    && (w'.Busy? ==> w'.token == w.token)
    && (InSection(w') ==>
          || (InSection(w) && w'.acquired == w.acquired && w'.acquiredAt == w.acquiredAt && v'.lease == v.lease)
          || (!InSection(w) && Free(v, v'.now) && w'.acquired && w'.acquiredAt == v'.now && Leases(c, v', w')))
    && (|| v'.lease == v.lease
        || (Free(v, v'.now) && v'.lease == Some(Lease(w.token, v'.now + c.lockTtl)))
        || (v.lease.Some? && v.lease.value.token == w.token && v'.lease == None && !InSection(w')))
  }

  predicate MovesWell(c: Config, v: View, w: Worker, o: Outcome)
    requires Running(w)
  {
    Moves(c, v, w, VStep(c, v, w, o), Next(c, Later(v, o.elapsed), w, o))
  }

  lemma MovesAcquire(c: Config, v: View, w: Worker, o: Outcome)
    requires Running(w) && w.pc.Acquire?
    ensures MovesWell(c, v, w, o)
  {
    var v1 := Later(v, o.elapsed);
    var w' := AfterAcquire(c, v1, w, o);
    assert Next(c, v1, w, o) == w';
    if o.fault.Fails? {
      assert !InSection(w');
    } else if Taken(v1) {
      assert !InSection(w');
    }
  }

  lemma MovesStarting(c: Config, v: View, w: Worker, o: Outcome)
    requires Running(w) && Starting(w.pc) && !w.pc.Acquire?
    ensures MovesWell(c, v, w, o)
  {
    hide ContendedDelay, Transition, Eligible;
  }

  lemma MovesWriting(c: Config, v: View, w: Worker, o: Outcome)
    requires Running(w) && Writing(w.pc)
    ensures MovesWell(c, v, w, o)
  {
  }

  lemma MovesDisposing(c: Config, v: View, w: Worker, o: Outcome)
    requires Running(w) && Disposing(w.pc)
    ensures MovesWell(c, v, w, o)
  {
  }

  lemma MovesTidying(c: Config, v: View, w: Worker, o: Outcome)
    requires Running(w) && Tidying(w.pc)
    ensures MovesWell(c, v, w, o)
  {
  }

  ghost predicate Tokens(l: Lone) {
    && (forall k :: k in l.crew ==> Running(l.crew[k]) && l.crew[k].token < l.next)
    && (forall j, k :: j in l.crew && k in l.crew && j != k ==> l.crew[j].token != l.crew[k].token)
    && (l.view.lease.Some? ==> l.view.lease.value.token < l.next)
  }

  /** A worker in the section owns the lock or has outlived it. */
  ghost predicate Owners(c: Config, l: Lone) {
    forall k :: k in l.crew && InSection(l.crew[k]) ==>
      && l.crew[k].acquired && l.crew[k].acquiredAt <= l.view.now
      && (Leases(c, l.view, l.crew[k]) || !Live(c, l.view.now, l.crew[k]))
  }

  /** Their times of ownership do not overlap. */
  ghost predicate Spaced(c: Config, l: Lone) {
    forall j, k :: j in l.crew && k in l.crew && j != k && InSection(l.crew[j]) && InSection(l.crew[k]) ==>
      || l.crew[j].acquiredAt + c.lockTtl <= l.crew[k].acquiredAt
      || l.crew[k].acquiredAt + c.lockTtl <= l.crew[j].acquiredAt
  }

  ghost predicate Inv(c: Config, l: Lone) { Tokens(l) && Owners(c, l) && Spaced(c, l) }

  predicate Crewed(crew: map<nat, Worker>, crew': map<nat, Worker>, wid: nat, w': Worker) {
    && (forall k :: k in crew' && k != wid ==> k in crew && crew'[k] == crew[k])
    && (wid in crew' ==> crew'[wid] == w' && Running(w'))
  }

  lemma OwnersByMove(c: Config, l: Lone, l': Lone, wid: nat, w': Worker)
    requires Tokens(l) && Owners(c, l)
    requires wid in l.crew && Moves(c, l.view, l.crew[wid], l'.view, w')
    requires Crewed(l.crew, l'.crew, wid, w') && l'.next == l.next
    ensures Tokens(l') && Owners(c, l')
  {
  }

  lemma SpacedByMove(c: Config, l: Lone, l': Lone, wid: nat, w': Worker)
    requires Tokens(l) && Owners(c, l) && Spaced(c, l)
    requires wid in l.crew && Moves(c, l.view, l.crew[wid], l'.view, w')
    requires Crewed(l.crew, l'.crew, wid, w') && l'.next == l.next
    ensures Spaced(c, l')
  {
  }

  lemma KeptByWork(c: Config, l: Lone, wid: nat, o: Outcome)
    requires LEnabled(c, l, Work(wid, o)) && Inv(c, l)
    ensures Inv(c, LWork(c, l, wid, o))
  {
    var w := l.crew[wid];
    if w.pc.Acquire? { MovesAcquire(c, l.view, w, o); }
    else if Starting(w.pc) { MovesStarting(c, l.view, w, o); }
    else if Writing(w.pc) { MovesWriting(c, l.view, w, o); }
    else if Disposing(w.pc) { MovesDisposing(c, l.view, w, o); }
    else { MovesTidying(c, l.view, w, o); }
    OwnersByMove(c, l, LWork(c, l, wid, o), wid, Next(c, Later(l.view, o.elapsed), w, o));
    SpacedByMove(c, l, LWork(c, l, wid, o), wid, Next(c, Later(l.view, o.elapsed), w, o));
  }

  lemma KeptByOthers(c: Config, l: Lone, l': Lone)
    requires Inv(c, l) && l'.view.lease == l.view.lease && l'.view.now >= l.view.now && l'.next >= l.next
    requires forall k :: k in l'.crew ==>
               || (k in l.crew && l'.crew[k] == l.crew[k])
               || (Running(l'.crew[k]) && !InSection(l'.crew[k]) && l.next <= l'.crew[k].token < l'.next
                   && forall j :: j in l'.crew && j != k ==> j in l.crew && l'.crew[j] == l.crew[j])
    ensures Inv(c, l')
  {
  }

  lemma KeptElsewhere(c: Config, l: Lone, a: Act)
    requires LEnabled(c, l, a) && Inv(c, l) && !a.Work? && !a.Take?
    ensures Inv(c, LStep(c, l, a))
  {
    assert LStep(c, l, a).crew.Keys <= l.crew.Keys;
    KeptByOthers(c, l, LStep(c, l, a));
  }

  lemma Kept(c: Config, l: Lone, a: Act)
    requires LEnabled(c, l, a) && Inv(c, l)
    ensures Inv(c, LStep(c, l, a))
  {
    if a.Work? {
      KeptByWork(c, l, a.wid, a.o);
    } else if a.Take? {
      KeptByOthers(c, l, LTake(l, a.wid, a.ok));
    } else {
      KeptElsewhere(c, l, a);
    }
  }

  /** Of two workers in the section for one email, the one that locked earlier is past its time to
      live, and had been so when the other locked. */
  lemma EarlierIsExpired(c: Config, l: Lone, j: nat, k: nat)
    requires Inv(c, l) && j in l.crew && k in l.crew && j != k && InSection(l.crew[j]) && InSection(l.crew[k])
    requires l.crew[j].acquiredAt <= l.crew[k].acquiredAt && c.lockTtl >= 1
    ensures l.crew[j].acquiredAt + c.lockTtl <= l.crew[k].acquiredAt <= l.view.now
  {
  }
}
