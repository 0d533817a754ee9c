/** The decision table of `process_email`: what an undisturbed call makes of its email, case by case. */
module Verdicts {
  import opened Base
  import opened Lists
  import opened Records
  import opened Queue
  import opened Process
  import opened ProcessEmails
  import Backoff
  import L = Limits

  // ----- what becomes of the copy -----

  predicate DeadLetters(k: Keys, k': Keys, id: Id) {
    && k'.queue == k.queue && k'.processing == LRem1(k.processing, id)
    && k'.dlq == [id] + k.dlq && k'.delayed == k.delayed && k'.marked == k.marked
  }

  predicate Completes(k: Keys, k': Keys, id: Id) {
    && k'.queue == k.queue && k'.processing == LRem1(k.processing, id)
    && k'.dlq == k.dlq && k'.delayed == k.delayed && k'.marked == k.marked - {id} && id !in k'.vis
  }

  predicate Delays(k: Keys, k': Keys, id: Id, earliest: int, latest: int) {
    && k'.queue == k.queue && k'.processing == LRem1(k.processing, id) && k'.dlq == k.dlq
    && id in k'.delayed && earliest <= k'.delayed[id] <= latest && k'.delayed == k.delayed[id := k'.delayed[id]]
    && k'.marked == k.marked + {id}
  }

  // ----- leaving through `finally` -----

  function Left(e: Env, w: Worker, o: Oracle): Env
    requires w.Busy?
  {
    var t1 := if w.acquired then e.now + o(Pc.Release).elapsed else e.now;
    e.(now := if w.dbError then t1 else t1 + o(Forget).elapsed,
       locks := if w.acquired then Locks.Release(e.locks, t1, w.id, w.token) else e.locks,
       keys := if w.dbError then e.keys else ClearErrors(e.keys, w.id))
  }

  lemma ForgetEnds(c: Config, e: Env, w: Worker, o: Oracle)
    requires w.Busy? && !w.acquired && o(Forget).fault.Fine?
    ensures Ends(c, o, e, Finally(w), Left(e, w, o), ReturnOf(w))
  {
    hide Solo;
    if !w.dbError { AtForget(c, o, e, Finally(w)); }
    EndsWhenDone(c, o, Left(e, w, o), w.(pc := Done));
  }

  lemma FinallyEnds(c: Config, e: Env, w: Worker, o: Oracle)
    requires w.Busy? && o(Forget).fault.Fine? && o(Pc.Release).fault.Fine?
    ensures Ends(c, o, e, Finally(w), Left(e, w, o), ReturnOf(w))
  {
    hide Solo;
    if w.acquired {
      var t1 := e.now + o(Pc.Release).elapsed;
      var e1, w1 := e.(now := t1, locks := Locks.Release(e.locks, t1, w.id, w.token)), w.(acquired := false);
      AtRelease(c, o, e, Finally(w));
      FinallyIgnoresPc(w1, Pc.Release);
      ForgetEnds(c, e1, w1, o);
    } else {
      ForgetEnds(c, e, w, o);
    }
  }

  /** The lock is free when its holder has left. */
  predicate Freed(e: Env, id: Id) { !Locks.Held(e.locks, e.now, id) }

  lemma LeftFrees(e: Env, w: Worker, o: Oracle)
    requires w.Busy? && w.acquired && w.id in e.locks && e.locks[w.id].token == w.token
    ensures Freed(Left(e, w, o), w.id)
  {
  }

  /** What a call that has come to its disposition still does besides moving the copy. */
  predicate Rest(e: Env, f: Env, w: Worker)
    requires w.Busy?
  {
    && f.db == e.db && f.now >= e.now
    && f.keys.dbErrors == (if w.dbError then e.keys.dbErrors else e.keys.dbErrors - {w.id})
    && (w.acquired && w.id in e.locks && e.locks[w.id].token == w.token ==> Freed(f, w.id))
    && (!w.acquired ==> f.locks == e.locks)
  }

  lemma LeftIsRest(e: Env, e1: Env, w: Worker, o: Oracle)
    requires w.Busy? && e1.db == e.db && e1.locks == e.locks && e1.now >= e.now && e1.keys.dbErrors == e.keys.dbErrors
    ensures Rest(e, Left(e1, w, o), w)
  {
    if w.acquired && w.id in e1.locks && e1.locks[w.id].token == w.token { LeftFrees(e1, w, o); }
  }

  /** The calls of a disposition and of `finally` come back normally. */
  ghost predicate EndsFine(o: Oracle) {
    && (forall pc :: Disposing(pc) || Tidying(pc) ==> o(pc).fault.Fine?)
  }

  predicate ToDispose(e: Env, w: Worker) { w.Busy? && !w.raised && w.id in e.keys.processing }

  lemma DlqEnds(c: Config, e: Env, w: Worker, o: Oracle)
    requires EndsFine(o) && ToDispose(e, w) && w.pc == MoveDlq && !w.guarded
    ensures var s := Solo(c, e, w, o);
            Rest(e, s.env, w) && DeadLetters(e.keys, s.env.keys, w.id) && ReturnOf(s.worker) == Returned(w.result)
  {
    hide Solo, Finally, Rest;
    var e1 := e.(now := e.now + o(MoveDlq).elapsed, keys := ToDlq(e.keys, w.id));
    assert o(MoveDlq).fault.Fine? && o(Forget).fault.Fine? && o(Pc.Release).fault.Fine?;
    AtMoveDlq(c, o, e, w);
    FinallyEnds(c, e1, w, o);
    LeftIsRest(e, e1, w, o);
  }

  lemma CompleteEnds(c: Config, e: Env, w: Worker, o: Oracle)
    requires EndsFine(o) && ToDispose(e, w) && w.pc == Remove && !w.guarded
    ensures var s := Solo(c, e, w, o);
            Rest(e, s.env, w) && Completes(e.keys, s.env.keys, w.id) && ReturnOf(s.worker) == Returned(w.result)
  {
    hide Solo, Finally, Rest;
    assert o(Remove).fault.Fine? && o(RemoveVis).fault.Fine? && o(ClearMark).fault.Fine?;
    assert o(Forget).fault.Fine? && o(Pc.Release).fault.Fine?;
    var e1 := e.(now := e.now + CompleteTime(o), keys := Unmark(Unwatch(Drop(e.keys, w.id), w.id), w.id));
    AtComplete(c, o, e, w);
    FinallyEnds(c, e1, w, o);
    LeftIsRest(e, e1, w, o);
  }

  /** The stores after a delay and its marker. */
  function Delayed2(e: Env, w: Worker, o: Oracle): Env
    requires w.Busy? && w.pc.MoveDelayed?
  {
    var t := e.now + o(w.pc).elapsed;
    e.(now := t + o(AddMark).elapsed, keys := Mark(ToDelayed(e.keys, w.id, t + w.pc.delay), w.id))
  }

  lemma DelayLeads(c: Config, e: Env, w: Worker, o: Oracle)
    requires EndsFine(o) && ToDispose(e, w) && w.pc.MoveDelayed?
    ensures Leads(c, o, e, w, Delayed2(e, w, o), Finally(w))
  {
    hide Solo, Finally;
    var t := e.now + o(w.pc).elapsed;
    assert o(w.pc).fault.Fine? && o(AddMark).fault.Fine?;
    AtMoveDelayed(c, o, e, w);
    AtAddMark(c, o, e.(now := t, keys := ToDelayed(e.keys, w.id, t + w.pc.delay)), w.(pc := AddMark));
    FinallyIgnoresPc(w, AddMark);
  }

  lemma DelayedKeys(e: Env, w: Worker, o: Oracle)
    requires ToDispose(e, w) && w.pc.MoveDelayed?
    ensures var f := Left(Delayed2(e, w, o), w, o);
            Rest(e, f, w) && Delays(e.keys, f.keys, w.id, e.now + w.pc.delay, f.now + w.pc.delay)
  {
    hide Rest;
    LeftIsRest(e, Delayed2(e, w, o), w, o);
  }

  lemma DelayEnds(c: Config, e: Env, w: Worker, o: Oracle)
    requires EndsFine(o) && ToDispose(e, w) && w.pc.MoveDelayed?
    ensures var s := Solo(c, e, w, o);
            && Rest(e, s.env, w) && Delays(e.keys, s.env.keys, w.id, e.now + w.pc.delay, s.env.now + w.pc.delay)
            && ReturnOf(s.worker) == Returned(w.result)
  {
    hide Solo, Finally, Rest, Delays, Delayed2, Left;
    assert o(Forget).fault.Fine? && o(Pc.Release).fault.Fine?;
    DelayLeads(c, e, w, o);
    FinallyEnds(c, Delayed2(e, w, o), w, o);
    DelayedKeys(e, w, o);
  }

  // ----- after the SMTP call -----

  /** The delay of a copy that has been failed `r` times lies between the doubled base and that plus the jitter,
      both cut off at the largest delay. */
  predicate DelaysByBackoff(c: Config, k: Keys, k': Keys, id: Id, from_: int, to: int, r: nat) {
    var plain := c.retryDelay * Backoff.Pow2(Max(r - 1, 0));
    if c.maxRetryDelay > 0 then
      Delays(k, k', id, from_ + Min(plain, c.maxRetryDelay), to + Min(plain + c.retryJitter, c.maxRetryDelay))
    else Delays(k, k', id, from_ + plain, to + plain + c.retryJitter)
  }

  lemma BackoffEnds(c: Config, e0: Env, e: Env, w: Worker, o: Oracle, r: nat, drawn: Outcome)
    requires EndsFine(o) && ToDispose(e, w) && w.pc == MoveDelayed(BackoffDelay(c, r, drawn))
    requires e.keys == e0.keys.(dbErrors := e.keys.dbErrors) && e0.now <= e.now
    ensures var s := Solo(c, e, w, o);
            && Rest(e, s.env, w) && DelaysByBackoff(c, e0.keys, s.env.keys, w.id, e0.now, s.env.now, r)
            && ReturnOf(s.worker) == Returned(w.result)
  {
    hide Solo, BackoffDelay, Rest;
    DelayEnds(c, e, w, o);
    BackoffDelayBounds(c, r, drawn);
  }

  /** The worker that has read the record, at a later call. */
  function At(e: Env, id: Id, token: Token, o: Oracle, pc: Pc, result: bool): Worker
    requires id in e.db
  {
    Busy(id, pc, token, true, e.now + o(Acquire).elapsed, Some(e.db[id]), false, false, false, result)
  }

  /** The stores when the SMTP call has come back. */
  lemma SendReturns(c: Config, e: Env, id: Id, token: Token, o: Oracle)
    requires L.Ready(c, e, id, o) && id in e.keys.processing
    ensures var e1 := L.EnvAtSeal(c, e, id, token, o);
            && Leads(c, o, e, Start(id, token, Acquire), e1, AfterSend(L.AboutToSend(e, id, token, o), o(Send)))
            && e1.keys == e.keys && e1.now >= e.now && e1.db == e.db[id := e.db[id].(status := Sending)]
            && id in e1.locks && e1.locks[id].token == token
  {
    hide Solo, AfterSend;
    L.ReadyLeadsToSend(c, e, id, token, o);
    AtSend(c, o, L.EnvAtSend(c, e, id, token, o), L.AboutToSend(e, id, token, o));
  }

  /** What holds after every call on an email that it has locked, when the database did not fail. */
  predicate Tidy(f: Env, id: Id) { Freed(f, id) && id !in f.keys.dbErrors }

  /** The email is accepted: SENT and completed, and the answer is true. */
  lemma AcceptedIsSent(c: Config, e: Env, id: Id, token: Token, o: Oracle)
    requires L.Ready(c, e, id, o) && id in e.keys.processing && EndsFine(o)
    requires o(Send).smtp.Accept? && o(WriteSent).fault.Fine?
    ensures var s := Solo(c, e, Start(id, token, Acquire), o); var f := s.env;
            && id in f.db && f.db[id].status == Status.Sent && f.db[id].retryCount == e.db[id].retryCount
            && Completes(e.keys, f.keys, id) && Tidy(f, id) && ReturnOf(s.worker) == Returned(true)
  {
    hide Solo, L.EnvAtSeal;
    var e1, w := L.EnvAtSeal(c, e, id, token, o), At(e, id, token, o, WriteSent, true);
    var e2 := Called(e1, o(WriteSent), e1.(db := Update(e1.db, id, Basis(w, o(WriteSent)), Status.Sent, false)));
    SendReturns(c, e, id, token, o);
    AtWriteOutcome(c, o, e1, w);
    CompleteEnds(c, e2, w.(pc := Remove), o);
  }

  /** The server refuses for good: DLQ with the same retry count, a dead letter, and the answer is false. */
  lemma PermanentIsDeadLetter(c: Config, e: Env, id: Id, token: Token, o: Oracle)
    requires L.Ready(c, e, id, o) && id in e.keys.processing && EndsFine(o)
    requires o(Send).smtp.Response? && o(Send).smtp.code in {500, 501, 502, 503, 504, 521, 550, 551, 552, 553, 554}
    requires o(WriteDlq(true)).fault.Fine?
    ensures var s := Solo(c, e, Start(id, token, Acquire), o); var f := s.env;
            && id in f.db && f.db[id].status == Status.Dlq && f.db[id].retryCount == e.db[id].retryCount
            && DeadLetters(e.keys, f.keys, id) && Tidy(f, id) && ReturnOf(s.worker) == Returned(false)
  {
    hide Solo, L.EnvAtSeal;
    var e1, w := L.EnvAtSeal(c, e, id, token, o), At(e, id, token, o, WriteDlq(true), false);
    var e2 := Called(e1, o(w.pc), e1.(db := Update(e1.db, id, Basis(w, o(w.pc)), Status.Dlq, false)));
    SendReturns(c, e, id, token, o);
    AtWriteOutcome(c, o, e1, w);
    DlqEnds(c, e2, w.(pc := MoveDlq), o);
  }

  /** Any other SMTP error: FAILED with one retry more, delayed by the backoff of the new count, and the answer is
      false. */
  lemma TransientIsRetried(c: Config, e: Env, id: Id, token: Token, o: Oracle)
    requires L.Ready(c, e, id, o) && id in e.keys.processing && EndsFine(o)
    requires || o(Send).smtp.SmtpError?
             || (o(Send).smtp.Response?
                 && o(Send).smtp.code !in {500, 501, 502, 503, 504, 521, 550, 551, 552, 553, 554})
    requires o(WriteFailed).fault.Fine?
    ensures var s := Solo(c, e, Start(id, token, Acquire), o); var f := s.env; var r := e.db[id].retryCount + 1;
            && id in f.db && f.db[id].status == Failed && f.db[id].retryCount == r
            && DelaysByBackoff(c, e.keys, f.keys, id, e.now, f.now, r)
            && Tidy(f, id) && ReturnOf(s.worker) == Returned(false)
  {
    hide Solo, L.EnvAtSeal, BackoffDelay, DelaysByBackoff;
    var e1, w := L.EnvAtSeal(c, e, id, token, o), At(e, id, token, o, WriteFailed, false);
    var g, r := o(WriteFailed), e.db[id].retryCount + 1;
    var e2 := Called(e1, g, e1.(db := Update(e1.db, id, Basis(w, g), Failed, true)));
    SendReturns(c, e, id, token, o);
    AtWriteFailed(c, o, e1, w);
    BackoffEnds(c, e, e2, w.(pc := MoveDelayed(BackoffDelay(c, r, g))), o, r, g);
  }

  /** An exception that is not an SMTP error: the same, through the generic arm. */
  lemma OtherErrorIsRetried(c: Config, e: Env, id: Id, token: Token, o: Oracle)
    requires L.Ready(c, e, id, o) && id in e.keys.processing && EndsFine(o)
    requires o(Send).smtp.OtherError? && o(WriteGeneric).fault.Fine?
    ensures var s := Solo(c, e, Start(id, token, Acquire), o); var f := s.env; var r := e.db[id].retryCount + 1;
            && id in f.db && f.db[id].status == Failed && f.db[id].retryCount == r
            && DelaysByBackoff(c, e.keys, f.keys, id, e.now, f.now, r)
            && Tidy(f, id) && ReturnOf(s.worker) == Returned(false)
  {
    hide Solo, L.EnvAtSeal, BackoffDelay, DelaysByBackoff;
    var e1, w := L.EnvAtSeal(c, e, id, token, o), At(e, id, token, o, WriteGeneric, false);
    var g, r := o(WriteGeneric), e.db[id].retryCount + 1;
    var e2 := Called(e1, g, e1.(db := Update(e1.db, id, None, Failed, true)));
    SendReturns(c, e, id, token, o);
    AtWriteGeneric(c, o, e1, w);
    BackoffEnds(c, e, e2, w.(pc := MoveDelayed(BackoffDelay(c, r, g)), guarded := true, result := false), o, r, g);
  }

  // ----- when the move at the end fails -----

  /** The failed move leaves the lists alone; the worker raises unless it is in the generic arm. */
  lemma DelayFails(c: Config, e: Env, w: Worker, o: Oracle)
    requires w.Busy? && w.pc.MoveDelayed? && !w.raised && o(w.pc).fault.Fails? && !Applied(o(w.pc).fault)
    requires o(Forget).fault.Fine? && o(Pc.Release).fault.Fine?
    ensures var s := Solo(c, e, w, o);
            && Rest(e, s.env, w) && s.env.keys == e.keys.(dbErrors := s.env.keys.dbErrors)
            && ReturnOf(s.worker) == if w.guarded then Returned(w.result) else Raised
  {
    hide Solo, Finally, Rest;
    var e1, w1 := e.(now := e.now + o(w.pc).elapsed), w.(raised := !w.guarded);
    AtMoveDelayed(c, o, e, w);
    FinallyEnds(c, e1, w1, o);
    LeftIsRest(e, e1, w, o);
  }

  /** After an SMTP error the failing delay raises `RedisError`: the record is FAILED and the copy stays. */
  lemma FailingDelayRaises(c: Config, e: Env, id: Id, token: Token, o: Oracle)
    requires L.Ready(c, e, id, o) && id in e.keys.processing && o(Forget).fault.Fine? && o(Pc.Release).fault.Fine?
    requires o(Send).smtp.SmtpError? && o(WriteFailed).fault.Fine?
    requires forall d :: o(MoveDelayed(d)).fault.Fails? && !Applied(o(MoveDelayed(d)).fault)
    ensures var s := Solo(c, e, Start(id, token, Acquire), o); var f := s.env;
            && id in f.db && f.db[id].status == Failed && f.db[id].retryCount == e.db[id].retryCount + 1
            && f.keys == e.keys.(dbErrors := f.keys.dbErrors) && Tidy(f, id) && ReturnOf(s.worker) == Raised
  {
    hide Solo, L.EnvAtSeal, BackoffDelay;
    var e1, w, g := L.EnvAtSeal(c, e, id, token, o), At(e, id, token, o, WriteFailed, false), o(WriteFailed);
    SendReturns(c, e, id, token, o);
    AtWriteFailed(c, o, e1, w);
    DelayFails(c, Called(e1, g, e1.(db := Update(e1.db, id, Basis(w, g), Failed, true))),
               w.(pc := MoveDelayed(BackoffDelay(c, e.db[id].retryCount + 1, g))), o);
  }

  /** In the generic arm it is swallowed: the record is FAILED, the copy stays, and the answer is false. */
  lemma FailingDelayIsSwallowed(c: Config, e: Env, id: Id, token: Token, o: Oracle)
    requires L.Ready(c, e, id, o) && id in e.keys.processing && o(Forget).fault.Fine? && o(Pc.Release).fault.Fine?
    requires o(Send).smtp.OtherError? && o(WriteGeneric).fault.Fine?
    requires forall d :: o(MoveDelayed(d)).fault.Fails? && !Applied(o(MoveDelayed(d)).fault)
    ensures var s := Solo(c, e, Start(id, token, Acquire), o); var f := s.env;
            && id in f.db && f.db[id].status == Failed && f.db[id].retryCount == e.db[id].retryCount + 1
            && f.keys == e.keys.(dbErrors := f.keys.dbErrors) && Tidy(f, id) && ReturnOf(s.worker) == Returned(false)
  {
    hide Solo, L.EnvAtSeal, BackoffDelay;
    var e1, w, g := L.EnvAtSeal(c, e, id, token, o), At(e, id, token, o, WriteGeneric, false), o(WriteGeneric);
    SendReturns(c, e, id, token, o);
    AtWriteGeneric(c, o, e1, w);
    DelayFails(c, Called(e1, g, e1.(db := Update(e1.db, id, None, Failed, true))),
               w.(pc := MoveDelayed(BackoffDelay(c, e.db[id].retryCount + 1, g)), guarded := true, result := false), o);
  }

  // ----- before the SMTP call -----

  /** The call gets the lock and reads the record without failure. */
  predicate Reads(e: Env, id: Id, o: Oracle) {
    && o(Acquire).fault.Fine? && o(Read).fault.Fine? && id in e.keys.processing
    && !Locks.Held(e.locks, e.now + o(Acquire).elapsed, id)
  }

  function EnvAtRead(c: Config, e: Env, id: Id, token: Token, o: Oracle): Env {
    var now := e.now + o(Acquire).elapsed;
    e.(now := now, locks := Locks.Acquire(e.locks, now, id, token, c.lockTtl))
  }

  /** The worker that has not read the record yet, or could not. */
  function Unread(e: Env, id: Id, token: Token, o: Oracle, pc: Pc): Worker {
    Busy(id, pc, token, true, e.now + o(Acquire).elapsed, None, false, false, false, false)
  }

  lemma GetsLock(c: Config, e: Env, id: Id, token: Token, o: Oracle)
    requires o(Acquire).fault.Fine? && !Locks.Held(e.locks, e.now + o(Acquire).elapsed, id)
    ensures var e1 := EnvAtRead(c, e, id, token, o);
            && Leads(c, o, e, Start(id, token, Acquire), e1, Unread(e, id, token, o, Read))
            && id in e1.locks && e1.locks[id].token == token
  {
    hide Solo;
    AtAcquire(c, o, e, Start(id, token, Acquire));
  }

  lemma ReadReturns(c: Config, e: Env, id: Id, token: Token, o: Oracle)
    requires Reads(e, id, o)
    ensures var e1 := EnvAtRead(c, e, id, token, o); var e2 := e1.(now := e1.now + o(Read).elapsed);
            && Leads(c, o, e, Start(id, token, Acquire), e2,
                     AfterRead(c, See(e2, id), Unread(e, id, token, o, Read), o(Read)))
            && id in e1.locks && e1.locks[id].token == token
  {
    hide Solo, AfterRead, See;
    GetsLock(c, e, id, token, o);
    AtRead(c, o, EnvAtRead(c, e, id, token, o), Unread(e, id, token, o, Read));
  }

  /** An email that is SENT already is completed, and the answer is true. */
  lemma SentIsCompleted(c: Config, e: Env, id: Id, token: Token, o: Oracle)
    requires Reads(e, id, o) && EndsFine(o) && id in e.db && e.db[id].status == Status.Sent
    ensures var s := Solo(c, e, Start(id, token, Acquire), o); var f := s.env;
            f.db == e.db && Completes(e.keys, f.keys, id) && Tidy(f, id) && ReturnOf(s.worker) == Returned(true)
  {
    hide Solo;
    var e1 := EnvAtRead(c, e, id, token, o);
    ReadReturns(c, e, id, token, o);
    CompleteEnds(c, e1.(now := e1.now + o(Read).elapsed), At(e, id, token, o, Remove, true), o);
  }

  /** So is the copy of a missing email, and the answer is false. */
  lemma MissingIsDropped(c: Config, e: Env, id: Id, token: Token, o: Oracle)
    requires Reads(e, id, o) && EndsFine(o) && id !in e.db
    ensures var s := Solo(c, e, Start(id, token, Acquire), o); var f := s.env;
            f.db == e.db && Completes(e.keys, f.keys, id) && Tidy(f, id) && ReturnOf(s.worker) == Returned(false)
  {
    hide Solo;
    var e1 := EnvAtRead(c, e, id, token, o);
    ReadReturns(c, e, id, token, o);
    CompleteEnds(c, e1.(now := e1.now + o(Read).elapsed), Unread(e, id, token, o, Remove), o);
  }

  /** With its retries used up an email that is not SENT becomes DLQ and a dead letter. */
  lemma UsedUpIsDeadLetter(c: Config, e: Env, id: Id, token: Token, o: Oracle)
    requires Reads(e, id, o) && EndsFine(o) && id in e.db && o(WriteDlq(false)).fault.Fine?
    requires e.db[id].status != Status.Sent && e.db[id].retryCount >= c.maxRetries
    ensures var s := Solo(c, e, Start(id, token, Acquire), o); var f := s.env;
            && id in f.db && f.db[id].status == Status.Dlq && f.db[id].retryCount == e.db[id].retryCount
            && DeadLetters(e.keys, f.keys, id) && Tidy(f, id) && ReturnOf(s.worker) == Returned(false)
  {
    hide Solo;
    var e1 := EnvAtRead(c, e, id, token, o);
    var e2, w := e1.(now := e1.now + o(Read).elapsed), At(e, id, token, o, WriteDlq(false), false);
    ReadReturns(c, e, id, token, o);
    AtWriteOutcome(c, o, e2, w);
    var e3 := Called(e2, o(w.pc), e2.(db := Update(e2.db, id, Basis(w, o(w.pc)), Status.Dlq, false)));
    DlqEnds(c, e3, w.(pc := MoveDlq), o);
  }

  /** The copy of an email that is SENDING or DLQ is dropped, and the answer is false. */
  lemma TakenIsDropped(c: Config, e: Env, id: Id, token: Token, o: Oracle)
    requires Reads(e, id, o) && EndsFine(o) && id in e.db && o(Cas).fault.Fine?
    requires (e.db[id].status == Sending || e.db[id].status == Status.Dlq) && e.db[id].retryCount < c.maxRetries
    ensures var s := Solo(c, e, Start(id, token, Acquire), o); var f := s.env;
            f.db == e.db && Completes(e.keys, f.keys, id) && Tidy(f, id) && ReturnOf(s.worker) == Returned(false)
  {
    hide Solo;
    var e1 := EnvAtRead(c, e, id, token, o);
    var e2, w := e1.(now := e1.now + o(Read).elapsed), At(e, id, token, o, Cas, false);
    ReadReturns(c, e, id, token, o);
    AtCas(c, o, e2, w);
    CompleteEnds(c, Called(e2, o(Cas), e2), w.(pc := Remove), o);
  }

  /** Another worker has the lock: the copy waits for the contended delay and at most as much again, or a second,
      and nothing but the error counter is touched besides. */
  lemma ContendedIsDelayed(c: Config, e: Env, id: Id, token: Token, o: Oracle)
    requires o(Acquire).fault.Fine? && id in e.keys.processing && EndsFine(o)
    requires Locks.Held(e.locks, e.now + o(Acquire).elapsed, id)
    ensures var s := Solo(c, e, Start(id, token, Acquire), o); var f := s.env;
            && f.db == e.db && f.locks == e.locks && id !in f.keys.dbErrors
            && Delays(e.keys, f.keys, id, e.now + c.contendedDelay, f.now + c.contendedDelay + Max(1, c.contendedDelay))
            && ReturnOf(s.worker) == Returned(false)
  {
    hide Solo, ContendedDelay;
    var f, w := o(Acquire), Start(id, token, Acquire);
    AtAcquire(c, o, e, w);
    DelayEnds(c, e.(now := e.now + f.elapsed), w.(pc := MoveDelayed(ContendedDelay(c, f))), o);
    ContendedDelayBounds(c, f);
  }

  /** The worker that has counted a database error, and the stores then. */
  function Counted(e: Env, id: Id, token: Token, o: Oracle, pc: Pc): Worker {
    Busy(id, pc, token, true, e.now + o(Acquire).elapsed, None, true, false, false, false)
  }

  function EnvAtCount(c: Config, e: Env, id: Id, token: Token, o: Oracle): Env {
    var e1 := EnvAtRead(c, e, id, token, o);
    e1.(now := e1.now + o(Read).elapsed + o(CountDbError).elapsed, keys := CountError(e.keys, id))
  }

  lemma CountLeads(c: Config, e: Env, id: Id, token: Token, o: Oracle)
    requires o(Acquire).fault.Fine? && !Locks.Held(e.locks, e.now + o(Acquire).elapsed, id)
    requires o(Read).fault.Fails? && !o(Read).fault.generic && o(CountDbError).fault.Fine?
    ensures var errors := Get0(e.keys.dbErrors, id) + 1;
            var pc := if errors >= c.maxRetries then MoveDlq
                      else MoveDelayed(BackoffDelay(c, errors, o(CountDbError)));
            Leads(c, o, e, Start(id, token, Acquire), EnvAtCount(c, e, id, token, o), Counted(e, id, token, o, pc))
    ensures id in EnvAtCount(c, e, id, token, o).locks && EnvAtCount(c, e, id, token, o).locks[id].token == token
  {
    hide Solo, BackoffDelay;
    var e1 := EnvAtRead(c, e, id, token, o);
    GetsLock(c, e, id, token, o);
    AtRead(c, o, e1, Unread(e, id, token, o, Read));
    AtCountDbError(c, o, e1.(now := e1.now + o(Read).elapsed), Unread(e, id, token, o, CountDbError));
  }

  /** The read raises `OperationalError`: one error more is counted and the record stays. Below `max_retries` errors
      the copy is delayed by the backoff of their number, and then it is a dead letter; the answer is false. */
  lemma DatabaseErrorIsCounted(c: Config, e: Env, id: Id, token: Token, o: Oracle)
    requires o(Acquire).fault.Fine? && !Locks.Held(e.locks, e.now + o(Acquire).elapsed, id)
    requires id in e.keys.processing && EndsFine(o)
    requires o(Read).fault.Fails? && !o(Read).fault.generic && o(CountDbError).fault.Fine?
    ensures var s := Solo(c, e, Start(id, token, Acquire), o); var f := s.env;
            var errors := Get0(e.keys.dbErrors, id) + 1;
            && f.db == e.db && f.keys.dbErrors == e.keys.dbErrors[id := errors] && Freed(f, id)
            && (errors < c.maxRetries ==> DelaysByBackoff(c, e.keys, f.keys, id, e.now, f.now, errors))
            && (errors >= c.maxRetries ==> DeadLetters(e.keys, f.keys, id))
            && ReturnOf(s.worker) == Returned(false)
  {
    hide Solo, BackoffDelay, DelaysByBackoff;
    var g, errors := o(CountDbError), Get0(e.keys.dbErrors, id) + 1;
    var e3 := EnvAtCount(c, e, id, token, o);
    CountLeads(c, e, id, token, o);
    if errors >= c.maxRetries {
      DlqEnds(c, e3, Counted(e, id, token, o, MoveDlq), o);
    } else {
      BackoffEnds(c, e, e3, Counted(e, id, token, o, MoveDelayed(BackoffDelay(c, errors, g))), o, errors, g);
    }
  }
}
