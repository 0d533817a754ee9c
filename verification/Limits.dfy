/** Where the fence stops: database exceptions other than `OperationalError`, which the hypotheses of
    `Guarantees.FencedSends` exclude. */
module Limits {
  import opened Base
  import opened Records
  import opened Process
  import opened OneEmail
  import opened ProcessEmails
  import Disposition

  // ----- a generic database exception after an accepted send -----

  /** The id is eligible, its lock is free when the call asks for it, and the calls up to the
      compare-and-set come back normally. */
  predicate Ready(c: Config, e: Env, id: Id, o: Oracle) {
    && Hits(e.db, id) && e.db[id].retryCount < c.maxRetries
    && !Locks.Held(e.locks, e.now + o(Acquire).elapsed, id)
    && o(Acquire).fault.Fine? && o(Read).fault.Fine? && o(Cas).fault.Fine?
  }

  /** The worker that is about to send, and the one whose send was accepted. */
  function AboutToSend(e: Env, id: Id, token: Token, o: Oracle): Worker
    requires id in e.db
  {
    Busy(id, Send, token, true, e.now + o(Acquire).elapsed, Some(e.db[id]), false, false, false, false)
  }

  function AboutToSeal(e: Env, id: Id, token: Token, o: Oracle): Worker
    requires id in e.db
  {
    Busy(id, WriteSent, token, true, e.now + o(Acquire).elapsed, Some(e.db[id]), false, false, false, true)
  }

  function EnvAtSend(c: Config, e: Env, id: Id, token: Token, o: Oracle): Env {
    e.(now := e.now + o(Acquire).elapsed + o(Read).elapsed + o(Cas).elapsed,
       locks := Locks.Acquire(e.locks, e.now + o(Acquire).elapsed, id, token, c.lockTtl),
       db := Transition(e.db, id))
  }

  function EnvAtSeal(c: Config, e: Env, id: Id, token: Token, o: Oracle): Env {
    var e1 := EnvAtSend(c, e, id, token, o);
    e1.(now := e1.now + o(Send).elapsed)
  }

  lemma EventsGrow(c: Config, e: Env, w: Worker, o: Oracle)
    requires Running(w)
    ensures var s := WStep(c, e, w, o(w.pc));
            Solo(c, e, w, o).events == [Happens(w, o(w.pc))] + Solo(c, s.env, s.worker, o).events
  {
    hide Next, Effect, Happens;
  }

  lemma SendIsAccepted(c: Config, e: Env, w: Worker, o: Oracle)
    requires w.Busy? && w.pc == Send && o(Send).smtp.Accept?
    ensures Accepted in Solo(c, e, w, o).events
  {
    hide Solo;
    EventsGrow(c, e, w, o);
  }

  /** Events of a later part of a call are events of the call. */
  lemma EventsPass(c: Config, e: Env, w: Worker, o: Oracle)
    requires Running(w)
    requires var s := WStep(c, e, w, o(w.pc)); Accepted in Solo(c, s.env, s.worker, o).events
    ensures Accepted in Solo(c, e, w, o).events
  {
    hide Solo, WStep, Happens;
    EventsGrow(c, e, w, o);
  }

  // The first three calls, one by one.

  function AfterLock(c: Config, e: Env, id: Id, token: Token, o: Oracle): Stepped {
    var now := e.now + o(Acquire).elapsed;
    Stepped(e.(now := now, locks := Locks.Acquire(e.locks, now, id, token, c.lockTtl)),
            Busy(id, Read, token, true, now, None, false, false, false, false), Quiet)
  }

  lemma LockStep(c: Config, e: Env, id: Id, token: Token, o: Oracle)
    requires Ready(c, e, id, o)
    ensures WStep(c, e, Start(id, token, Acquire), o(Acquire)) == AfterLock(c, e, id, token, o)
  {
    hide Locks.Acquire;
  }

  function AfterRow(c: Config, e: Env, id: Id, token: Token, o: Oracle): Stepped
    requires id in e.db
  {
    var s := AfterLock(c, e, id, token, o);
    Stepped(s.env.(now := s.env.now + o(Read).elapsed), s.worker.(pc := Cas, seen := Some(e.db[id])), Quiet)
  }

  lemma RowStep(c: Config, e: Env, id: Id, token: Token, o: Oracle)
    requires Ready(c, e, id, o)
    ensures var s := AfterLock(c, e, id, token, o); WStep(c, s.env, s.worker, o(Read)) == AfterRow(c, e, id, token, o)
  {
    hide Locks.Acquire;
  }

  lemma CasStep(c: Config, e: Env, id: Id, token: Token, o: Oracle)
    requires Ready(c, e, id, o)
    ensures var s := AfterRow(c, e, id, token, o);
            WStep(c, s.env, s.worker, o(Cas))
            == Stepped(EnvAtSend(c, e, id, token, o), AboutToSend(e, id, token, o), Quiet)
  {
    hide Locks.Acquire;
  }

  /** A call that finds the email eligible and its lock free gets it accepted. */
  lemma ReadySends(c: Config, e: Env, id: Id, token: Token, o: Oracle)
    requires Ready(c, e, id, o) && o(Send).smtp.Accept?
    ensures Accepted in Solo(c, e, Start(id, token, Acquire), o).events
  {
    hide Solo, WStep, EnvAtSend;
    LockStep(c, e, id, token, o);
    RowStep(c, e, id, token, o);
    CasStep(c, e, id, token, o);
    SendIsAccepted(c, EnvAtSend(c, e, id, token, o), AboutToSend(e, id, token, o), o);
    var row, lock := AfterRow(c, e, id, token, o), AfterLock(c, e, id, token, o);
    EventsPass(c, row.env, row.worker, o);
    EventsPass(c, lock.env, lock.worker, o);
    EventsPass(c, e, Start(id, token, Acquire), o);
  }

  lemma ReadyLeadsToSend(c: Config, e: Env, id: Id, token: Token, o: Oracle)
    requires Ready(c, e, id, o)
    ensures Leads(c, o, e, Start(id, token, Acquire), EnvAtSend(c, e, id, token, o), AboutToSend(e, id, token, o))
  {
    hide Solo, WStep, EnvAtSend;
    LockStep(c, e, id, token, o);
    RowStep(c, e, id, token, o);
    CasStep(c, e, id, token, o);
    var row, lock := AfterRow(c, e, id, token, o), AfterLock(c, e, id, token, o);
    LeadsStep(c, o, e, Start(id, token, Acquire));
    LeadsStep(c, o, lock.env, lock.worker);
    LeadsStep(c, o, row.env, row.worker);
  }

  /** Past every call that changes the record. */
  predicate Past(w: Worker) { w.Busy? && !Starting(w.pc) && (Writing(w.pc) ==> w.pc.CountDbError?) }

  lemma NeverBack(c: Config, v: View, w: Worker, o: Outcome)
    requires Running(w) && Past(w)
    ensures Past(Next(c, v, w, o))
  {
    hide Next;
    RankFalls(c, v, w, o);
    Disposition.StaysBusy(c, v, w, o);
  }

  lemma {:induction false} RecordStays(c: Config, e: Env, w: Worker, o: Oracle)
    requires Past(w)
    ensures Solo(c, e, w, o).env.db == e.db
    decreases Rank(w)
  {
    hide Next, See;
    if Running(w) {
      var v := See(e.(now := e.now + o(w.pc).elapsed), w.id);
      RankFalls(c, v, w, o(w.pc));
      NeverBack(c, v, w, o(w.pc));
      var s := WStep(c, e, w, o(w.pc));
      RecordStays(c, s.env, s.worker, o);
    }
  }

  predicate Generic(f: Fault) { f.Fails? && f.generic }

  /** The generic arm leaves the record FAILED if its write takes effect, and else as it is. */
  lemma FromGeneric(c: Config, e: Env, w: Worker, o: Oracle)
    requires w.Busy? && w.pc == WriteGeneric
    ensures Solo(c, e, w, o).env.db
            == if Applied(o(WriteGeneric).fault) then Update(e.db, w.id, None, Failed, true) else e.db
  {
    hide Solo, BackoffDelay;
    var g := o(WriteGeneric);
    AtWriteGeneric(c, o, e, w);
    var e1 := Called(e, g, e.(db := Update(e.db, w.id, None, Failed, true)));
    var retries := if g.fault.Fine? && w.id in e.db then e1.db[w.id].retryCount else 1;
    RecordStays(c, e1, w.(pc := MoveDelayed(BackoffDelay(c, retries, g)), guarded := true, result := false), o);
  }

  /** The worker writes SENT, or DLQ over used up retries: whatever becomes of the write, the email is eligible
      afterwards exactly when a generic exception leads to a FAILED write that takes effect. */
  lemma OutcomeReopensIff(c: Config, e: Env, w: Worker, o: Oracle)
    requires w.Busy? && (w.pc == WriteSent || w.pc.WriteDlq?) && w.id in e.db && !Eligible(e.db[w.id].status)
    ensures Hits(Solo(c, e, w, o).env.db, w.id) <==> Generic(o(w.pc).fault) && Applied(o(WriteGeneric).fault)
  {
    hide Solo;
    var f := o(w.pc);
    var status := if w.pc == WriteSent then Status.Sent else Status.Dlq;
    var e1 := Called(e, f, e.(db := Update(e.db, w.id, Basis(w, f), status, false)));
    var w1 := w.(pc := if f.fault.Fails? then (if f.fault.generic then WriteGeneric else CountDbError)
                       else if w.pc == WriteSent then Remove else MoveDlq);
    AtWriteOutcome(c, o, e, w);
    if Generic(f.fault) { FromGeneric(c, e1, w1, o); } else { RecordStays(c, e1, w1, o); }
  }

  /** A call that gets the email accepted leaves it eligible if and only if the SENT write raises an exception other
      than `OperationalError` and the FAILED write of the generic arm takes effect. */
  lemma AcceptedReopensIff(c: Config, e: Env, id: Id, token: Token, o: Oracle)
    requires Ready(c, e, id, o) && o(Send).smtp.Accept?
    ensures Hits(Solo(c, e, Start(id, token, Acquire), o).env.db, id)
            <==> Generic(o(WriteSent).fault) && Applied(o(WriteGeneric).fault)
  {
    hide Solo, Locks.Acquire;
    ReadyLeadsToSend(c, e, id, token, o);
    AtSend(c, o, EnvAtSend(c, e, id, token, o), AboutToSend(e, id, token, o));
    OutcomeReopensIff(c, EnvAtSeal(c, e, id, token, o), AboutToSeal(e, id, token, o), o);
  }

  lemma AcceptedReopensAsFailed(c: Config, e: Env, id: Id, token: Token, o: Oracle)
    requires Ready(c, e, id, o) && o(Send).smtp.Accept? && Generic(o(WriteSent).fault) && Applied(o(WriteGeneric).fault)
    ensures var db := Solo(c, e, Start(id, token, Acquire), o).env.db;
            id in db && db[id].status == Failed && db[id].retryCount == e.db[id].retryCount + 1
  {
    hide Solo, Locks.Acquire;
    var w, e1 := AboutToSeal(e, id, token, o), EnvAtSeal(c, e, id, token, o);
    ReadyLeadsToSend(c, e, id, token, o);
    AtSend(c, o, EnvAtSend(c, e, id, token, o), AboutToSend(e, id, token, o));
    AtWriteOutcome(c, o, e1, w);
    FromGeneric(c, Called(e1, o(WriteSent), e1.(db := Update(e1.db, id, Basis(w, o(WriteSent)), Status.Sent, false))),
                w.(pc := WriteGeneric), o);
  }

  // ----- a generic database exception on an email that may not be sent -----

  /** The database call to which an email with this record leads after the read. */
  function CallAfterRead(c: Config, rec: Record): Option<Pc> {
    if rec.status == Status.Sent then None
    else if rec.retryCount >= c.maxRetries then Some(WriteDlq(false)) else Some(Cas)
  }

  /** The read, or the call after it, raises a generic exception. */
  predicate GenericOnTheWay(c: Config, rec: Record, o: Oracle) {
    || Generic(o(Read).fault)
    || (o(Read).fault.Fine? && var pc := CallAfterRead(c, rec); pc.Some? && Generic(o(pc.value).fault))
  }

  /** The worker gets the lock, the read or the call after it raises an exception other than
      `OperationalError`, and the FAILED write of the generic arm takes effect. */
  predicate Reopens(c: Config, e: Env, id: Id, o: Oracle) {
    && id in e.db && o(Acquire).fault.Fine? && !Locks.Held(e.locks, e.now + o(Acquire).elapsed, id)
    && GenericOnTheWay(c, e.db[id], o) && Applied(o(WriteGeneric).fault)
  }

  lemma FromCas(c: Config, e: Env, w: Worker, o: Oracle)
    requires w.Busy? && w.pc == Cas && w.id in e.db && !Eligible(e.db[w.id].status)
    ensures Hits(Solo(c, e, w, o).env.db, w.id) <==> Generic(o(Cas).fault) && Applied(o(WriteGeneric).fault)
  {
    hide Solo;
    var f := o(Cas);
    var e1 := Called(e, f, e.(db := Transition(e.db, w.id)));
    var w1 := w.(pc := if f.fault.Fails? then (if f.fault.generic then WriteGeneric else CountDbError) else Remove);
    AtCas(c, o, e, w);
    if Generic(f.fault) { FromGeneric(c, e1, w1, o); } else { RecordStays(c, e1, w1, o); }
  }

  lemma FromRead(c: Config, e: Env, w: Worker, o: Oracle)
    requires w.Busy? && w.pc == Read && w.id in e.db && !Eligible(e.db[w.id].status)
    ensures Hits(Solo(c, e, w, o).env.db, w.id)
            <==> GenericOnTheWay(c, e.db[w.id], o) && Applied(o(WriteGeneric).fault)
  {
    hide Solo;
    var f := o(Read);
    var e1, rec := e.(now := e.now + f.elapsed), e.db[w.id];
    AtRead(c, o, e, w);
    if Generic(f.fault) { FromGeneric(c, e1, w.(pc := WriteGeneric), o); }
    else if f.fault.Fails? { RecordStays(c, e1, w.(pc := CountDbError), o); }
    else if rec.status == Status.Sent { RecordStays(c, e1, w.(pc := Remove, seen := Some(rec), result := true), o); }
    else if rec.retryCount >= c.maxRetries {
      OutcomeReopensIff(c, e1, w.(pc := WriteDlq(false), seen := Some(rec)), o);
    }
    else { FromCas(c, e1, w.(pc := Cas, seen := Some(rec)), o); }
  }

  /** A call on an email that is SENDING, SENT or DLQ makes it eligible again if and only if `Reopens`. */
  lemma SpentReopensIff(c: Config, e: Env, id: Id, token: Token, o: Oracle)
    requires id in e.db && !Eligible(e.db[id].status)
    ensures Hits(Solo(c, e, Start(id, token, Acquire), o).env.db, id) <==> Reopens(c, e, id, o)
  {
    hide Solo, ContendedDelay, Locks.Acquire;
    var f, w := o(Acquire), Start(id, token, Acquire);
    var now := e.now + f.elapsed;
    var e1 := Called(e, f, e.(locks := Locks.Acquire(e.locks, now, id, token, c.lockTtl)));
    AtAcquire(c, o, e, w);
    if f.fault.Fails? { RecordStays(c, e1, Finally(w.(raised := true)), o); }
    else if Locks.Held(e.locks, now, id) { RecordStays(c, e1, w.(pc := MoveDelayed(ContendedDelay(c, f))), o); }
    else { FromRead(c, e1, w.(pc := Read, acquired := true, acquiredAt := now), o); }
  }

  // ----- writes that come late -----

  /** A sweeper action on a record that has left PENDING and QUEUED since the SELECT makes an email that may not be
      sent eligible again if and only if it does not skip the record and gets as far as a write that takes effect. */
  lemma SweepReopensIff(c: Config, v: View, s: Swept)
    requires v.rec.Some? && !Hit(v)
    ensures Hit(VSweep(c, v, s))
            <==> !Skips(v, s) && Applied(s.write)
                 && (v.rec.value.sweeps >= c.maxSweeps || (s.push.Fine? && s.mark.Fine?))
  {
  }

  /** So does a submission's FAILED write, if and only if it takes effect. */
  lemma LateFailReopensIff(l: Lone, sid: nat, f: Fault)
    requires sid in l.subs && l.subs[sid].ToFail? && l.view.rec.Some? && !Hit(l.view)
    ensures Hit(LSubmit(l, sid, f).view) <==> Applied(f)
  {
  }

  // ----- two acceptances -----

  /** Once a call has reopened the email, any later one that finds the lock free and retries left gets it
      accepted. So an accepted email is accepted again, and so is one that was SENT before. */
  lemma ReopenedIsSentAgain(c: Config, e: Env, id: Id, token: Token, o: Oracle, e': Env, token': Token, o': Oracle)
    requires Applied(o(WriteGeneric).fault)
    requires || (Ready(c, e, id, o) && o(Send).smtp.Accept? && Generic(o(WriteSent).fault))
             || (id in e.db && !Eligible(e.db[id].status) && Reopens(c, e, id, o))
    requires e'.db == Solo(c, e, Start(id, token, Acquire), o).env.db
    requires id in e'.db ==> e'.db[id].retryCount < c.maxRetries
    requires !Locks.Held(e'.locks, e'.now + o'(Acquire).elapsed, id)
    requires o'(Acquire).fault.Fine? && o'(Read).fault.Fine? && o'(Cas).fault.Fine? && o'(Send).smtp.Accept?
    ensures id in e.db && Eligible(e.db[id].status) ==> Accepted in Solo(c, e, Start(id, token, Acquire), o).events
    ensures Accepted in Solo(c, e', Start(id, token', Acquire), o').events
  {
    hide Solo;
    if Ready(c, e, id, o) && o(Send).smtp.Accept? && Generic(o(WriteSent).fault) {
      AcceptedReopensIff(c, e, id, token, o);
      ReadySends(c, e, id, token, o);
    } else {
      SpentReopensIff(c, e, id, token, o);
    }
    ReadySends(c, e', id, token', o');
  }
}
