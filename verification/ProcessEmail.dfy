/** `process_email` as a program over the three services, with its exception arms, proved to do what the
    worker's calls in a row do (`Process.Solo`). The oracle tells how each call ends. */
module ProcessEmails {
  import opened Base
  import opened Lists
  import opened Records
  import opened Queue
  import opened Process
  import QS = QueueServices
  import ES = EmailServices
  import LH = LockHistory
  import Disposition
  import Outcomes

  /** A return value, or the `RedisError` that leaves the function. */
  datatype Return = Returned(value: bool) | Raised

  function ReturnOf(w: Worker): Return {
    if w.Busy? && !w.raised then Returned(w.result) else Raised
  }

  /** From `(e, w)` an undisturbed worker comes to `(e', w')`. */
  ghost predicate Leads(c: Config, o: Oracle, e: Env, w: Worker, e': Env, w': Worker) {
    && Solo(c, e, w, o).env == Solo(c, e', w', o).env
    && Solo(c, e, w, o).worker == Solo(c, e', w', o).worker
  }

  /** From `(e, w)` an undisturbed worker ends in `e'`, and its call comes back with `r`. */
  ghost predicate Ends(c: Config, o: Oracle, e: Env, w: Worker, e': Env, r: Return) {
    Solo(c, e, w, o).env == e' && ReturnOf(Solo(c, e, w, o).worker) == r
  }

  lemma EndsWhenDone(c: Config, o: Oracle, e: Env, w: Worker)
    requires !Running(w)
    ensures Ends(c, o, e, w, e, ReturnOf(w))
  {
  }

  lemma LeadsStep(c: Config, o: Oracle, e: Env, w: Worker)
    requires Running(w)
    ensures var s := WStep(c, e, w, o(w.pc)); Leads(c, o, e, w, s.env, s.worker)
  {
  }

  /** The stores when a call that may take effect on them has come back. */
  function Called(e: Env, o: Outcome, e': Env): Env {
    var now := e.now + o.elapsed;
    if Applied(o.fault) then e'.(now := now) else e.(now := now)
  }

  lemma LeadsTo(c: Config, o: Oracle, e: Env, w: Worker, e': Env, w': Worker)
    requires Running(w)
    requires var e1 := e.(now := e.now + o(w.pc).elapsed);
             && e' == (if Applied(o(w.pc).fault) then Effect(c, e1, w, o(w.pc)) else e1)
             && w' == Next(c, See(e1, w.id), w, o(w.pc))
    ensures Leads(c, o, e, w, e', w')
  {
    hide Solo, Next, Effect;
    LeadsStep(c, o, e, w);
  }

  lemma FinallyIgnoresPc(w: Worker, pc: Pc)
    requires w.Busy?
    ensures Finally(w.(pc := pc)) == Finally(w)
  {
  }

  // ----- where the calls of `complete` and of the scripts lead -----

  lemma AtRemove(c: Config, o: Oracle, e: Env, w: Worker)
    requires w.Busy? && w.pc == Remove && !w.guarded
    ensures Leads(c, o, e, w, Called(e, o(Remove), e.(keys := Drop(e.keys, w.id))),
                  if o(Remove).fault.Fine? then w.(pc := RemoveVis) else Finally(w.(raised := true)))
  {
    hide Solo, Leads;
    var e' := Called(e, o(Remove), e.(keys := Drop(e.keys, w.id)));
    var w' := AfterDisposal(w, o(Remove), w.(pc := RemoveVis));
    LeadsTo(c, o, e, w, e', w');
  }

  lemma AtRemoveVis(c: Config, o: Oracle, e: Env, w: Worker)
    requires w.Busy? && w.pc == RemoveVis
    ensures Leads(c, o, e, w, Called(e, o(RemoveVis), e.(keys := Unwatch(e.keys, w.id))),
                  if o(RemoveVis).fault.Fine? then w.(pc := ClearMark) else Finally(w.(raised := true)))
  {
    hide Solo, Leads;
    LeadsTo(c, o, e, w, Called(e, o(RemoveVis), e.(keys := Unwatch(e.keys, w.id))),
            if o(RemoveVis).fault.Fine? then w.(pc := ClearMark) else Finally(w.(raised := true)));
  }

  lemma AtClearMark(c: Config, o: Oracle, e: Env, w: Worker)
    requires w.Busy? && w.pc == ClearMark
    ensures Leads(c, o, e, w, Called(e, o(ClearMark), e.(keys := Unmark(e.keys, w.id))), Finally(w))
  {
    hide Solo, Leads;
    LeadsTo(c, o, e, w, Called(e, o(ClearMark), e.(keys := Unmark(e.keys, w.id))), Finally(w));
  }

  /** The time that `complete` takes, up to the call that raises. */
  function CompleteTime(o: Oracle): nat {
    o(Remove).elapsed + (if o(Remove).fault.Fails? then 0 else
    o(RemoveVis).elapsed + (if o(RemoveVis).fault.Fails? then 0 else o(ClearMark).elapsed))
  }

  lemma AtComplete(c: Config, o: Oracle, e: Env, w: Worker)
    requires w.Busy? && w.pc == Remove && !w.guarded
    ensures var ok := o(Remove).fault.Fine? && o(RemoveVis).fault.Fine?;
            var k := QS.Completed(e.keys, w.id, o(Remove).fault, o(RemoveVis).fault, o(ClearMark).fault);
            Leads(c, o, e, w, e.(now := e.now + CompleteTime(o), keys := k),
                  Finally(if ok then w else w.(raised := true)))
  {
    hide Solo, Finally;
    var e1 := Called(e, o(Remove), e.(keys := Drop(e.keys, w.id)));
    AtRemove(c, o, e, w);
    if o(Remove).fault.Fine? {
      var e2 := Called(e1, o(RemoveVis), e1.(keys := Unwatch(e1.keys, w.id)));
      AtRemoveVis(c, o, e1, w.(pc := RemoveVis));
      FinallyIgnoresPc(w.(raised := true), RemoveVis);
      if o(RemoveVis).fault.Fine? {
        AtClearMark(c, o, e2, w.(pc := ClearMark));
        FinallyIgnoresPc(w, ClearMark);
      }
    }
  }

  lemma AtAddMark(c: Config, o: Oracle, e: Env, w: Worker)
    requires w.Busy? && w.pc == AddMark
    ensures Leads(c, o, e, w, Called(e, o(AddMark), e.(keys := Mark(e.keys, w.id))), Finally(w))
  {
    hide Solo, Leads;
    LeadsTo(c, o, e, w, Called(e, o(AddMark), e.(keys := Mark(e.keys, w.id))), Finally(w));
  }

  lemma AtMoveDlq(c: Config, o: Oracle, e: Env, w: Worker)
    requires w.Busy? && w.pc == MoveDlq && !w.guarded
    ensures Leads(c, o, e, w, Called(e, o(MoveDlq), e.(keys := ToDlq(e.keys, w.id))),
                  Finally(w.(raised := w.raised || o(MoveDlq).fault.Fails?)))
  {
    hide Solo, Leads;
    LeadsTo(c, o, e, w, Called(e, o(MoveDlq), e.(keys := ToDlq(e.keys, w.id))),
            Finally(w.(raised := w.raised || o(MoveDlq).fault.Fails?)));
  }

  lemma AtMoveDelayed(c: Config, o: Oracle, e: Env, w: Worker)
    requires w.Busy? && w.pc.MoveDelayed?
    ensures var f := o(w.pc);
            Leads(c, o, e, w, Called(e, f, e.(keys := ToDelayed(e.keys, w.id, e.now + f.elapsed + w.pc.delay))),
                  if f.fault.Fails? then Finally(w.(raised := w.raised || !w.guarded))
                  else if w.id in e.keys.processing then w.(pc := AddMark) else Finally(w))
  {
    hide Solo, Leads;
    var f := o(w.pc);
    CountIn(e.keys.processing, w.id);
    LeadsTo(c, o, e, w, Called(e, f, e.(keys := ToDelayed(e.keys, w.id, e.now + f.elapsed + w.pc.delay))),
            if f.fault.Fails? then Finally(w.(raised := w.raised || !w.guarded))
            else if w.id in e.keys.processing then w.(pc := AddMark) else Finally(w));
  }

  lemma AtRelease(c: Config, o: Oracle, e: Env, w: Worker)
    requires w.Busy? && w.pc == Pc.Release
    ensures var f := o(Pc.Release);
            Leads(c, o, e, w, Called(e, f, e.(locks := Locks.Release(e.locks, e.now + f.elapsed, w.id, w.token))),
                  Finally(w.(acquired := false)))
  {
    hide Solo, Leads;
    var f := o(Pc.Release);
    LeadsTo(c, o, e, w, Called(e, f, e.(locks := Locks.Release(e.locks, e.now + f.elapsed, w.id, w.token))),
            Finally(w.(acquired := false)));
  }

  lemma AtForget(c: Config, o: Oracle, e: Env, w: Worker)
    requires w.Busy? && w.pc == Forget
    ensures Leads(c, o, e, w, Called(e, o(Forget), e.(keys := ClearErrors(e.keys, w.id))), w.(pc := Done))
  {
    hide Solo, Leads;
    LeadsTo(c, o, e, w, Called(e, o(Forget), e.(keys := ClearErrors(e.keys, w.id))), w.(pc := Done));
  }

  // ----- where the other calls lead -----

  lemma AtCountDbError(c: Config, o: Oracle, e: Env, w: Worker)
    requires w.Busy? && w.pc == CountDbError
    ensures var f := o(CountDbError);
            var count := Get0(e.keys.dbErrors, w.id) + 1;
            var w1 := w.(dbError := true, result := false);
            Leads(c, o, e, w, Called(e, f, e.(keys := CountError(e.keys, w.id))),
                  if f.fault.Fails? then Finally(w1.(raised := true))
                  else if count >= c.maxRetries then w1.(pc := MoveDlq)
                  else w1.(pc := MoveDelayed(BackoffDelay(c, Min(count, c.maxRetries), f))))
  {
    hide Solo, Leads, BackoffDelay;
    var f := o(CountDbError);
    LeadsTo(c, o, e, w, Called(e, f, e.(keys := CountError(e.keys, w.id))),
            AfterCountDbError(c, See(e.(now := e.now + f.elapsed), w.id), w, f));
  }

  lemma AtWriteGeneric(c: Config, o: Oracle, e: Env, w: Worker)
    requires w.Busy? && w.pc == WriteGeneric
    ensures var f := o(WriteGeneric);
            var e' := Called(e, f, e.(db := Update(e.db, w.id, None, Failed, true)));
            var retries := if f.fault.Fine? && w.id in e.db then e'.db[w.id].retryCount else 1;
            Leads(c, o, e, w, e', w.(pc := MoveDelayed(BackoffDelay(c, retries, f)), guarded := true, result := false))
  {
    hide Solo, Leads, BackoffDelay;
    var f := o(WriteGeneric);
    LeadsTo(c, o, e, w, Called(e, f, e.(db := Update(e.db, w.id, None, Failed, true))),
            AfterWriteGeneric(c, See(e.(now := e.now + f.elapsed), w.id), w, f));
  }

  lemma AtWriteFailed(c: Config, o: Oracle, e: Env, w: Worker)
    requires w.Busy? && w.pc == WriteFailed
    ensures var f := o(WriteFailed);
            var e' := Called(e, f, e.(db := Update(e.db, w.id, Basis(w, f), Failed, true)));
            Leads(c, o, e, w, e',
                  if f.fault.Fails? then w.(pc := if f.fault.generic then WriteGeneric else CountDbError)
                  else if w.id !in e.db then w.(pc := WriteGeneric)
                  else w.(pc := MoveDelayed(BackoffDelay(c, e'.db[w.id].retryCount, f))))
  {
    hide Solo, Leads, BackoffDelay;
    var f := o(WriteFailed);
    LeadsTo(c, o, e, w, Called(e, f, e.(db := Update(e.db, w.id, Basis(w, f), Failed, true))),
            AfterWriteFailed(c, See(e.(now := e.now + f.elapsed), w.id), w, f));
  }

  lemma AtWriteOutcome(c: Config, o: Oracle, e: Env, w: Worker)
    requires w.Busy? && (w.pc == WriteSent || w.pc.WriteDlq?)
    ensures var f := o(w.pc);
            var status := if w.pc == WriteSent then Status.Sent else Status.Dlq;
            Leads(c, o, e, w, Called(e, f, e.(db := Update(e.db, w.id, Basis(w, f), status, false))),
                  w.(pc := if f.fault.Fails? then (if f.fault.generic then WriteGeneric else CountDbError)
                           else if w.id !in e.db then WriteGeneric
                           else if w.pc == WriteSent then Remove else MoveDlq))
  {
    hide Solo, Leads;
    var f := o(w.pc);
    var status := if w.pc == WriteSent then Status.Sent else Status.Dlq;
    LeadsTo(c, o, e, w, Called(e, f, e.(db := Update(e.db, w.id, Basis(w, f), status, false))),
            w.(pc := AfterDb(f, w.id in e.db, if w.pc == WriteSent then Remove else MoveDlq)));
  }

  lemma AtSend(c: Config, o: Oracle, e: Env, w: Worker)
    requires w.Busy? && w.pc == Send
    ensures Leads(c, o, e, w, e.(now := e.now + o(Send).elapsed), AfterSend(w, o(Send)))
  {
    hide Solo, Leads, AfterSend;
    LeadsTo(c, o, e, w, e.(now := e.now + o(Send).elapsed), AfterSend(w, o(Send)));
  }

  lemma AtCas(c: Config, o: Oracle, e: Env, w: Worker)
    requires w.Busy? && w.pc == Cas
    ensures var f := o(Cas);
            Leads(c, o, e, w, Called(e, f, e.(db := Transition(e.db, w.id))),
                  w.(pc := if f.fault.Fails? then (if f.fault.generic then WriteGeneric else CountDbError)
                           else if Hits(e.db, w.id) then Send else Remove))
  {
    hide Solo, Leads;
    var f := o(Cas);
    LeadsTo(c, o, e, w, Called(e, f, e.(db := Transition(e.db, w.id))),
            w.(pc := AfterDb(f, true, if Hits(e.db, w.id) then Send else Remove)));
  }

  lemma AtRead(c: Config, o: Oracle, e: Env, w: Worker)
    requires w.Busy? && w.pc == Read
    ensures var f := o(Read); var e' := e.(now := e.now + f.elapsed);
            Leads(c, o, e, w, e', AfterRead(c, See(e', w.id), w, f))
  {
    hide Solo, Leads, AfterRead;
    var f := o(Read);
    LeadsTo(c, o, e, w, e.(now := e.now + f.elapsed), AfterRead(c, See(e.(now := e.now + f.elapsed), w.id), w, f));
  }

  lemma AtAcquire(c: Config, o: Oracle, e: Env, w: Worker)
    requires w.Busy? && w.pc == Acquire
    ensures var f := o(Acquire); var now := e.now + f.elapsed;
            Leads(c, o, e, w, Called(e, f, e.(locks := Locks.Acquire(e.locks, now, w.id, w.token, c.lockTtl))),
                  if f.fault.Fails? then Finally(w.(raised := true))
                  else if Locks.Held(e.locks, now, w.id) then w.(pc := MoveDelayed(ContendedDelay(c, f)))
                  else w.(pc := Read, acquired := true, acquiredAt := now))
  {
    hide Solo, Leads, ContendedDelay;
    var f := o(Acquire); var now := e.now + f.elapsed;
    LeadsTo(c, o, e, w, Called(e, f, e.(locks := Locks.Acquire(e.locks, now, w.id, w.token, c.lockTtl))),
            AfterAcquire(c, See(e.(now := now), w.id), w, f));
  }

  lemma TrueMeansSent(c: Config, o: Oracle, e: Env, id: Id, token: Token, e': Env, r: Return)
    requires Ends(c, o, e, Start(id, token, Acquire), e', r)
    ensures r == Returned(true) ==> id in e'.db && e'.db[id].status == Status.Sent
  {
    hide Solo;
    Outcomes.AnswerMeans(c, e, id, token, o);
  }

  /** The copy ended in exactly one way. It stays where it was only if the call came to a Redis call that
      failed: it then raises, or it came back from the generic arm and the move at its end had failed. */
  ghost predicate DisposedOnce(c: Config, e: Env, k: Keys, id: Id, token: Token, o: Oracle, r: Return) {
    exists ev ::
      && Disposition.Ending(ev) && Disposition.Settles(e.keys, k, id, ev)
      && (ev == Stranded ==> Abandons(c, e, id, token, o, r))
  }

  predicate Abandons(c: Config, e: Env, id: Id, token: Token, o: Oracle, r: Return) {
    var at := Disposition.StrandedAt(c, e, Start(id, token, Acquire), o);
    && at.Some? && Disposition.RedisMove(at.value) && o(at.value).fault.Fails?
    && (Disposing(at.value) ==> !Applied(o(at.value).fault))
    && (r.Raised? || Disposing(at.value))
  }

  lemma DisposesOnce(c: Config, o: Oracle, e: Env, id: Id, token: Token, e': Env, r: Return)
    requires Ends(c, o, e, Start(id, token, Acquire), e', r) && id in e.keys.processing
    ensures DisposedOnce(c, e, e'.keys, id, token, o, r)
  {
    hide Solo, Disposition.Settles, Disposition.StrandedAt, Disposition.EndingOf, Disposition.Endings;
    var w := Start(id, token, Acquire);
    Disposition.SoloSettles(c, e, w, o);
    assert Disposition.EndingOf(Solo(c, e, w, o).events) == Stranded ==> Abandons(c, e, id, token, o, r);
  }

  // ----- the program -----

  class WorkerProcess {
    const c: Config
    const queue: QS.QueueService
    const emails: ES.EmailService
    const lock: LH.RedisLock
    var now: int

    constructor (c: Config, queue: QS.QueueService, emails: ES.EmailService, lock: LH.RedisLock, now: int)
      ensures this.c == c && this.queue == queue && this.emails == emails && this.lock == lock && this.now == now
    {
      this.c, this.queue, this.emails, this.lock, this.now := c, queue, emails, lock, now;
    }

    function Stores(): Env
      reads this, queue, emails, lock
    {
      Env(now, queue.View(), lock.leases, emails.rows)
    }

    /** The end of `finally`: forget database errors if there was none in this call. */
    method ForgetAndReturn(w: Worker, o: Oracle) returns (r: Return)
      requires w.Busy? && !w.acquired
      modifies this`now, queue
      ensures Ends(c, o, old(Stores()), Finally(w), Stores(), r)
    {
      hide Solo;
      if !w.dbError {
        AtForget(c, o, Stores(), Finally(w));
        now := now + o(Forget).elapsed;
        var forgotten := queue.ClearDbErrorCount(w.id, o(Forget).fault);
      }
      EndsWhenDone(c, o, Stores(), w.(pc := Done));
      r := if w.raised then Raised else Returned(w.result);
    }

    /** `finally`: release the lock if it was acquired. Both calls swallow `RedisError`. */
    method LeaveThrough(w: Worker, o: Oracle) returns (r: Return)
      requires w.Busy?
      modifies this`now, queue, lock
      ensures Ends(c, o, old(Stores()), Finally(w), Stores(), r)
    {
      hide Solo;
      var w1 := w.(acquired := false);
      if w.acquired {
        AtRelease(c, o, Stores(), Finally(w));
        now := now + o(Pc.Release).elapsed;
        var released := lock.Release(now, w.id, w.token, o(Pc.Release).fault);
        FinallyIgnoresPc(w1, Pc.Release);
      }
      r := ForgetAndReturn(w1, o);
    }

    /** `complete`, then out. */
    method CompleteAndLeave(w: Worker, o: Oracle) returns (r: Return)
      requires w.Busy? && w.pc == Remove && !w.guarded
      modifies this`now, queue, lock
      ensures Ends(c, o, old(Stores()), w, Stores(), r)
    {
      hide Solo, Finally;
      AtComplete(c, o, Stores(), w);
      now := now + CompleteTime(o);
      var ok := queue.Complete(w.id, o(Remove).fault, o(RemoveVis).fault, o(ClearMark).fault);
      r := LeaveThrough(if ok then w else w.(raised := true), o);
    }

    /** `move_to_dlq`, then out. */
    method DeadLetterAndLeave(w: Worker, o: Oracle) returns (r: Return)
      requires w.Busy? && w.pc == MoveDlq && !w.guarded && !w.raised
      modifies this`now, queue, lock
      ensures Ends(c, o, old(Stores()), w, Stores(), r)
    {
      hide Solo, Finally;
      AtMoveDlq(c, o, Stores(), w);
      now := now + o(MoveDlq).elapsed;
      var moved := queue.MoveToDlq(w.id, o(MoveDlq).fault);
      r := LeaveThrough(w.(raised := moved.RedisError?), o);
    }

    /** `requeue_delayed`, then out; in the generic arm its failure is swallowed. */
    method DelayAndLeave(w: Worker, o: Oracle) returns (r: Return)
      requires w.Busy? && w.pc.MoveDelayed? && !w.raised
      modifies this`now, queue, lock
      ensures Ends(c, o, old(Stores()), w, Stores(), r)
    {
      hide Solo, Finally;
      var script, sadd := o(w.pc), o(AddMark);
      var at := now + script.elapsed;
      ghost var e0 := Stores();
      ghost var e1 := Called(e0, script, e0.(keys := ToDelayed(e0.keys, w.id, at + w.pc.delay)));
      AtMoveDelayed(c, o, e0, w);
      AtAddMark(c, o, e1, w.(pc := AddMark));
      now := at + (if script.fault.Fine? && w.id in queue.processing then sadd.elapsed else 0);
      var ok := queue.RequeueDelayed(w.id, at, w.pc.delay, script.fault, sadd.fault);
      FinallyIgnoresPc(w, AddMark);
      r := LeaveThrough(w.(raised := !ok && !w.guarded), o);
    }

    // ----- exception arms -----

    /** `except OperationalError`: count the error, then retry later or give up. */
    method OnOperationalError(w: Worker, o: Oracle) returns (r: Return)
      requires w.Busy? && w.pc == CountDbError && !w.guarded && !w.raised
      modifies this`now, queue, lock
      ensures Ends(c, o, old(Stores()), w, Stores(), r)
    {
      hide Solo, Finally;
      var f := o(CountDbError);
      AtCountDbError(c, o, Stores(), w);
      now := now + f.elapsed;
      var count := queue.IncrementDbErrorCount(w.id, f.fault);
      var w1 := w.(dbError := true, result := false);
      if count.RedisError? {
        r := LeaveThrough(w1.(raised := true), o);
      } else if count.value >= c.maxRetries {
        r := DeadLetterAndLeave(w1.(pc := MoveDlq), o);
      } else {
        var delay := Backoff.CalculateBackoffDelay(Min(count.value, c.maxRetries), c.retryDelay, c.maxRetryDelay,
                                                   c.retryJitter, Min(f.drawn, c.retryJitter));
        r := DelayAndLeave(w1.(pc := MoveDelayed(delay)), o);
      }
    }

    /** `except Exception`: write FAILED if possible, then retry later. */
    method OnException(w: Worker, o: Oracle) returns (r: Return)
      requires w.Busy? && w.pc == WriteGeneric && !w.raised
      modifies this`now, queue, lock, emails
      ensures Ends(c, o, old(Stores()), w, Stores(), r)
    {
      hide Solo, Finally;
      var f := o(WriteGeneric);
      AtWriteGeneric(c, o, Stores(), w);
      now := now + f.elapsed;
      var updated := emails.UpdateStatus(w.id, None, Failed, true, f.fault);
      var retries := if updated.Row? then updated.value.retryCount else 1;
      var delay := Backoff.CalculateBackoffDelay(retries, c.retryDelay, c.maxRetryDelay,
                                                 c.retryJitter, Min(f.drawn, c.retryJitter));
      r := DelayAndLeave(w.(pc := MoveDelayed(delay), guarded := true, result := false), o);
    }

    // ----- after the SMTP call -----

    /** A retryable SMTP error: write FAILED with one more retry, then delay. */
    method OnSmtpError(w: Worker, o: Oracle) returns (r: Return)
      requires w.Busy? && w.pc == WriteFailed && !w.guarded && !w.raised
      modifies this`now, queue, lock, emails
      ensures Ends(c, o, old(Stores()), w, Stores(), r)
    {
      hide Solo, Finally;
      var f := o(WriteFailed);
      AtWriteFailed(c, o, Stores(), w);
      now := now + f.elapsed;
      var updated := emails.UpdateStatus(w.id, Basis(w, f), Failed, true, f.fault);
      match updated
      case OperationalError => r := OnOperationalError(w.(pc := CountDbError), o);
      case OtherException => r := OnException(w.(pc := WriteGeneric), o);
      case Row(rec) =>
        var delay := Backoff.CalculateBackoffDelay(rec.retryCount, c.retryDelay, c.maxRetryDelay,
                                                   c.retryJitter, Min(f.drawn, c.retryJitter));
        r := DelayAndLeave(w.(pc := MoveDelayed(delay)), o);
    }

    /** Write SENT and complete, or write DLQ and move to the dead letters. */
    method WriteOutcome(w: Worker, o: Oracle) returns (r: Return)
      requires w.Busy? && (w.pc == WriteSent || w.pc.WriteDlq?) && !w.guarded && !w.raised
      modifies this`now, queue, lock, emails
      ensures Ends(c, o, old(Stores()), w, Stores(), r)
    {
      hide Solo, Finally;
      var f := o(w.pc);
      AtWriteOutcome(c, o, Stores(), w);
      now := now + f.elapsed;
      var status := if w.pc == WriteSent then Status.Sent else Status.Dlq;
      var updated := emails.UpdateStatus(w.id, Basis(w, f), status, false, f.fault);
      match updated
      case OperationalError => r := OnOperationalError(w.(pc := CountDbError), o);
      case OtherException => r := OnException(w.(pc := WriteGeneric), o);
      case Row(_) =>
        if w.pc == WriteSent { r := CompleteAndLeave(w.(pc := Remove), o); }
        else { r := DeadLetterAndLeave(w.(pc := MoveDlq), o); }
    }

    method SendAndLeave(w: Worker, o: Oracle) returns (r: Return)
      requires w.Busy? && w.pc == Send && !w.guarded && !w.raised
      modifies this`now, queue, lock, emails
      ensures Ends(c, o, old(Stores()), w, Stores(), r)
    {
      hide Solo, Finally;
      AtSend(c, o, Stores(), w);
      now := now + o(Send).elapsed;
      match o(Send).smtp
      case Accept => r := WriteOutcome(w.(pc := WriteSent, result := true), o);
      case Response(code) =>
        if code in PERMANENT_SMTP_CODES { r := WriteOutcome(w.(pc := WriteDlq(true)), o); }
        else { r := OnSmtpError(w.(pc := WriteFailed), o); }
      case SmtpError => r := OnSmtpError(w.(pc := WriteFailed), o);
      case OtherError => r := OnException(w.(pc := WriteGeneric), o);
    }

    /** The compare-and-set; a worker that does not win it drops its copy. */
    method TransitionAndLeave(w: Worker, o: Oracle) returns (r: Return)
      requires w.Busy? && w.pc == Cas && !w.guarded && !w.raised
      modifies this`now, queue, lock, emails
      ensures Ends(c, o, old(Stores()), w, Stores(), r)
    {
      hide Solo, Finally;
      AtCas(c, o, Stores(), w);
      now := now + o(Cas).elapsed;
      var transitioned := emails.TransitionToSending(w.id, o(Cas).fault);
      match transitioned
      case OperationalError => r := OnOperationalError(w.(pc := CountDbError), o);
      case OtherException => r := OnException(w.(pc := WriteGeneric), o);
      case Row(hit) =>
        if hit { r := SendAndLeave(w.(pc := Send), o); } else { r := CompleteAndLeave(w.(pc := Remove), o); }
    }

    method ReadAndLeave(w: Worker, o: Oracle) returns (r: Return)
      requires w.Busy? && w.pc == Read && !w.guarded && !w.raised
      modifies this`now, queue, lock, emails
      ensures Ends(c, o, old(Stores()), w, Stores(), r)
    {
      hide Solo, Finally;
      AtRead(c, o, Stores(), w);
      now := now + o(Read).elapsed;
      var email := emails.GetById(w.id, o(Read).fault);
      match email
      case OperationalError => r := OnOperationalError(w.(pc := CountDbError), o);
      case OtherException => r := OnException(w.(pc := WriteGeneric), o);
      case Row(found) =>
        if found.None? {
          r := CompleteAndLeave(w.(pc := Remove), o);
        } else if found.value.status == Status.Sent {
          r := CompleteAndLeave(w.(pc := Remove, seen := found, result := true), o);
        } else if found.value.retryCount >= c.maxRetries {
          r := WriteOutcome(w.(pc := WriteDlq(false), seen := found), o);
        } else {
          r := TransitionAndLeave(w.(pc := Cas, seen := found), o);
        }
    }

    method AcquireAndLeave(w: Worker, o: Oracle) returns (r: Return)
      requires w.Busy? && w.pc == Acquire && !w.guarded && !w.raised
      modifies this`now, queue, lock, emails
      ensures Ends(c, o, old(Stores()), w, Stores(), r)
    {
      hide Solo, Finally, ContendedDelay, Locks.Acquire, Locks.Held;
      var f := o(Acquire);
      AtAcquire(c, o, Stores(), w);
      now := now + f.elapsed;
      var acquired := lock.Acquire(now, w.id, w.token, c.lockTtl, f.fault);
      if acquired.RedisError? {
        r := LeaveThrough(w.(raised := true), o);
      } else if !acquired.value {
        r := DelayAndLeave(w.(pc := MoveDelayed(ContendedDelay(c, f))), o);
      } else {
        r := ReadAndLeave(w.(pc := Read, acquired := true, acquiredAt := now), o);
      }
    }

    /** `process_email`. It makes the calls of an undisturbed worker, and so disposes of the copy it was
        given in exactly one way, unless a Redis call failed on the way there. */
    method ProcessEmail(id: Id, token: Token, o: Oracle) returns (r: Return)
      modifies this`now, queue, lock, emails
      ensures Ends(c, o, old(Stores()), Start(id, token, Acquire), Stores(), r)
      ensures id in old(queue.processing) ==> DisposedOnce(c, old(Stores()), queue.View(), id, token, o, r)
      ensures r == Returned(true) ==> id in emails.rows && emails.rows[id].status == Status.Sent
    {
      hide Solo, Ends, DisposedOnce;
      r := AcquireAndLeave(Start(id, token, Acquire), o);
      TrueMeansSent(c, o, old(Stores()), id, token, Stores(), r);
      if id in old(queue.processing) { DisposesOnce(c, o, old(Stores()), id, token, Stores(), r); }
    }
  }
}
