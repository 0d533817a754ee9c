/** One worker handling one id: `dequeue`'s second command and `process_email`, cut at every call to
    Redis, to the database and to the SMTP server. A `Pc` names the call that comes next; the way
    the call ends is given by an `Outcome`. */
module Process {
  import opened Base
  import opened Lists
  import opened Records
  import opened Queue
  import opened Locks
  import Backoff

  datatype Config = Config(
    maxRetries: nat, retryDelay: nat, maxRetryDelay: nat, retryJitter: nat,
    lockTtl: nat, contendedDelay: nat, visibility: nat, maxSweeps: nat)

  const PERMANENT_SMTP_CODES: set<int> := {500, 501, 502, 503, 504, 521, 550, 551, 552, 553, 554}

  /** How `smtp_service.send_email` ends: normally, with `SMTPResponseException`, with another
      `SMTPException`, or with any other exception. */
  datatype Smtp = Accept | Response(code: int) | SmtpError | OtherError

  /** `elapsed` is the time that passes before the call; `drawn` feeds `random.randint`; `cached` says
      that the session hands `update_status` the record it loaded before. */
  datatype Outcome = Outcome(elapsed: nat, fault: Fault, smtp: Smtp, drawn: nat, cached: bool)

  datatype Pc =
    | Refresh                      // dequeue: refresh_processing_visibility
    | Acquire                      // lock.acquire
    | Read                         // get_by_id
    | Cas                          // transition_to_sending
    | Send                         // smtp_service.send_email
    | WriteSent                    // update_status(SENT)
    | WriteFailed                  // update_status(FAILED, increment_retry) after an SMTP error
    | WriteDlq(permanent: bool)    // update_status(DLQ): SMTP refused for good, or retries used up
    | WriteGeneric                 // `except Exception`: rollback, update_status(FAILED, increment_retry)
    | CountDbError                 // `except OperationalError`: increment_db_error_count
    | Remove | RemoveVis | ClearMark  // complete: LREM, ZREM, SREM
    | MoveDlq                      // move_to_dlq script
    | MoveDelayed(delay: nat)      // requeue_delayed script
    | AddMark                      // requeue_delayed: mark_queued
    | Release                      // finally: lock.release
    | Forget                       // finally: clear_db_error_count
    | Done

  datatype Worker =
    | Idle
    | Busy(id: Id, pc: Pc, token: Token, acquired: bool, acquiredAt: int, seen: Option<Record>,
           dbError: bool, guarded: bool, raised: bool, result: bool)

  /** What a call did. `Completed`, `Delayed` and `DeadLettered` are the three dispositions of a copy;
      `Stranded` is giving up on it because a Redis call failed. */
  datatype Event = Quiet | Attempted | Accepted | Completed | Delayed | DeadLettered | Stranded

  predicate Running(w: Worker) { w.Busy? && w.pc != Done }

  function Start(id: Id, token: Token, pc: Pc): Worker {
    Busy(id, pc, token, false, 0, None, false, false, false, false)
  }

  // ----- what one email looks like in the two stores -----

  datatype Env = Env(now: int, keys: Keys, locks: Leases, db: Table)

  /** Everything the stores say about one id. */
  datatype View = View(
    now: int, queued: nat, processing: nat, delayed: Option<int>, dead: nat, marked: bool,
    errors: nat, lease: Option<Lease>, rec: Option<Record>)

  function Lookup<T>(m: map<Id, T>, x: Id): Option<T> { if x in m then Some(m[x]) else None }

  function See(e: Env, x: Id): View {
    View(e.now, Count(e.keys.queue, x), Count(e.keys.processing, x), Lookup(e.keys.delayed, x),
         Count(e.keys.dlq, x), x in e.keys.marked, Get0(e.keys.dbErrors, x), Lookup(e.locks, x), Lookup(e.db, x))
  }

  predicate Taken(v: View) { v.lease.Some? && v.now < v.lease.value.expiry }

  predicate Hit(v: View) { v.rec.Some? && Eligible(v.rec.value.status) }

  // ----- control: where a call leads -----

  /** The `finally` block. */
  function Finally(w: Worker): Worker
    requires w.Busy?
  {
    if w.acquired then w.(pc := Pc.Release) else if !w.dbError then w.(pc := Forget) else w.(pc := Done)
  }

  function Raise(w: Worker): Worker
    requires w.Busy?
  {
    Finally(w.(raised := true))
  }

  function BackoffDelay(c: Config, retries: nat, o: Outcome): nat {
    Backoff.Delay(retries, c.retryDelay, c.maxRetryDelay, c.retryJitter, Min(o.drawn, c.retryJitter))
  }

  function ContendedDelay(c: Config, o: Outcome): nat {
    c.contendedDelay + Min(o.drawn, Max(1, c.contendedDelay))
  }

  /** A retry waits for the doubled base delay and at most the jitter more, both cut off at the cap. */
  lemma BackoffDelayBounds(c: Config, retries: nat, o: Outcome)
    ensures var plain, delay := c.retryDelay * Backoff.Pow2(Max(retries - 1, 0)), BackoffDelay(c, retries, o);
            && (c.maxRetryDelay == 0 ==> plain <= delay <= plain + c.retryJitter)
            && (c.maxRetryDelay > 0 ==>
                  Min(plain, c.maxRetryDelay) <= delay <= Min(plain + c.retryJitter, c.maxRetryDelay))
  {
    Backoff.DelayBounds(retries, c.retryDelay, c.maxRetryDelay, c.retryJitter, Min(o.drawn, c.retryJitter));
  }

  /** A contended copy waits for the contended delay, and at most as much again, or a second. */
  lemma ContendedDelayBounds(c: Config, o: Outcome)
    ensures c.contendedDelay <= ContendedDelay(c, o) <= c.contendedDelay + Max(1, c.contendedDelay)
  {
  }

  /** Where a database call leads: its `next` step, or one of the two exception arms. A missing record
      makes `update_status` raise `EmailNotFoundError`. */
  function AfterDb(o: Outcome, found: bool, next: Pc): Pc {
    match o.fault
    case Fails(_, generic) => if generic then WriteGeneric else CountDbError
    case Fine => if found then next else WriteGeneric
  }

  function Basis(w: Worker, o: Outcome): Option<Record>
    requires w.Busy?
  {
    if o.cached then w.seen else None
  }

  /** The row after `update_status`. */
  function Rewritten(rec: Record, base: Option<Record>, status: Status, increment: bool): Record {
    Updated(if base.Some? then base.value else rec, rec, status, increment)
  }

  function AfterAcquire(c: Config, v: View, w: Worker, o: Outcome): Worker
    requires w.Busy?
  {
    if o.fault.Fails? then Raise(w)
    else if Taken(v) then w.(pc := MoveDelayed(ContendedDelay(c, o)))
    else w.(pc := Read, acquired := true, acquiredAt := v.now)
  }

  function AfterRead(c: Config, v: View, w: Worker, o: Outcome): Worker
    requires w.Busy?
  {
    if o.fault.Fails? then w.(pc := AfterDb(o, false, Done))
    else if v.rec.None? then w.(pc := Remove)
    else if v.rec.value.status == Status.Sent then w.(pc := Remove, seen := v.rec, result := true)
    else if v.rec.value.retryCount >= c.maxRetries then w.(pc := WriteDlq(false), seen := v.rec)
    else w.(pc := Cas, seen := v.rec)
  }

  function AfterSend(w: Worker, o: Outcome): Worker
    requires w.Busy?
  {
    match o.smtp
    case Accept => w.(pc := WriteSent, result := true)
    case Response(code) => w.(pc := if code in PERMANENT_SMTP_CODES then WriteDlq(true) else WriteFailed)
    case SmtpError => w.(pc := WriteFailed)
    case OtherError => w.(pc := WriteGeneric)
  }

  function AfterWriteFailed(c: Config, v: View, w: Worker, o: Outcome): Worker
    requires w.Busy?
  {
    var retries := if v.rec.Some? then Rewritten(v.rec.value, Basis(w, o), Failed, true).retryCount else 0;
    w.(pc := AfterDb(o, v.rec.Some?, MoveDelayed(BackoffDelay(c, retries, o))))
  }

  /** Any exception of the second attempt to write is swallowed. */
  function AfterWriteGeneric(c: Config, v: View, w: Worker, o: Outcome): Worker
    requires w.Busy?
  {
    var retries := if o.fault.Fine? && v.rec.Some? then v.rec.value.retryCount + 1 else 1;
    w.(pc := MoveDelayed(BackoffDelay(c, retries, o)), guarded := true, result := false)
  }

  function AfterCountDbError(c: Config, v: View, w: Worker, o: Outcome): Worker
    requires w.Busy?
  {
    var w := w.(dbError := true, result := false);
    var count := v.errors + 1;
    if o.fault.Fails? then Raise(w)
    else if count >= c.maxRetries then w.(pc := MoveDlq)
    else w.(pc := MoveDelayed(BackoffDelay(c, Min(count, c.maxRetries), o)))
  }

  /** A disposition has been called. The generic arm swallows its failure, the others raise it. */
  function AfterDisposal(w: Worker, o: Outcome, next: Worker): Worker
    requires w.Busy?
  {
    if o.fault.Fine? then next else Finally(w.(raised := w.raised || !w.guarded))
  }

  function Next(c: Config, v: View, w: Worker, o: Outcome): Worker
    requires Running(w)
  {
    match w.pc
    case Refresh => if o.fault.Fine? then w.(pc := Acquire) else Idle
    case Acquire => AfterAcquire(c, v, w, o)
    case Read => AfterRead(c, v, w, o)
    case Cas => w.(pc := AfterDb(o, true, if Hit(v) then Send else Remove))
    case Send => AfterSend(w, o)
    case WriteSent => w.(pc := AfterDb(o, v.rec.Some?, Remove))
    case WriteDlq(_) => w.(pc := AfterDb(o, v.rec.Some?, MoveDlq))
    case WriteFailed => AfterWriteFailed(c, v, w, o)
    case WriteGeneric => AfterWriteGeneric(c, v, w, o)
    case CountDbError => AfterCountDbError(c, v, w, o)
    case Remove => AfterDisposal(w, o, w.(pc := RemoveVis))
    case MoveDlq => AfterDisposal(w, o, Finally(w))
    case MoveDelayed(_) => AfterDisposal(w, o, if v.processing > 0 then w.(pc := AddMark) else Finally(w))
    case RemoveVis => if o.fault.Fine? then w.(pc := ClearMark) else Raise(w)
    case ClearMark => Finally(w)
    case AddMark => Finally(w)
    case Release => Finally(w.(acquired := false))
    case Forget => w.(pc := Done)
  }

  function Happens(w: Worker, o: Outcome): Event
    requires Running(w)
  {
    match w.pc
    case Send => if o.smtp.Accept? then Accepted else Attempted
    case Remove => if Applied(o.fault) then Completed else Stranded
    case MoveDlq => if Applied(o.fault) then DeadLettered else Stranded
    case MoveDelayed(_) => if Applied(o.fault) then Delayed else Stranded
    case Refresh => if o.fault.Fine? then Quiet else Stranded
    case Acquire => if o.fault.Fine? then Quiet else Stranded
    case CountDbError => if o.fault.Fine? then Quiet else Stranded
    case _ => Quiet
  }

  // ----- effect of a call on the stores -----

  /** What the call does to the stores when the server carries it out. */
  function Effect(c: Config, e: Env, w: Worker, o: Outcome): Env
    requires Running(w)
  {
    match w.pc
    case Refresh => e.(keys := Watch(e.keys, w.id, e.now + c.visibility))
    case Acquire => e.(locks := Locks.Acquire(e.locks, e.now, w.id, w.token, c.lockTtl))
    case Read => e
    case Cas => e.(db := Transition(e.db, w.id))
    case Send => e
    case WriteSent => e.(db := Update(e.db, w.id, Basis(w, o), Status.Sent, false))
    case WriteDlq(_) => e.(db := Update(e.db, w.id, Basis(w, o), Status.Dlq, false))
    case WriteFailed => e.(db := Update(e.db, w.id, Basis(w, o), Failed, true))
    case WriteGeneric => e.(db := Update(e.db, w.id, None, Failed, true))
    case CountDbError => e.(keys := CountError(e.keys, w.id))
    case Remove => e.(keys := Drop(e.keys, w.id))
    case MoveDlq => e.(keys := ToDlq(e.keys, w.id))
    case MoveDelayed(d) => e.(keys := ToDelayed(e.keys, w.id, e.now + d))
    case RemoveVis => e.(keys := Unwatch(e.keys, w.id))
    case ClearMark => e.(keys := Unmark(e.keys, w.id))
    case AddMark => e.(keys := Mark(e.keys, w.id))
    case Release => e.(locks := Locks.Release(e.locks, e.now, w.id, w.token))
    case Forget => e.(keys := ClearErrors(e.keys, w.id))
  }

  datatype Stepped = Stepped(env: Env, worker: Worker, event: Event)

  /** One call of worker `w`. */
  function WStep(c: Config, e: Env, w: Worker, o: Outcome): Stepped
    requires Running(w)
  {
    var e1 := e.(now := e.now + o.elapsed);
    Stepped(if Applied(o.fault) then Effect(c, e1, w, o) else e1, Next(c, See(e1, w.id), w, o), Happens(w, o))
  }

  // ----- a call that runs undisturbed -----

  function Rank(w: Worker): nat {
    if w.Idle? then 0 else
    match w.pc
    case Refresh => 17 case Acquire => 16 case Read => 15 case Cas => 14 case Send => 13
    case WriteSent => 12 case WriteFailed => 12 case WriteDlq(_) => 12
    case WriteGeneric => 11 case CountDbError => 11
    case Remove => 10 case RemoveVis => 9 case ClearMark => 8
    case MoveDlq => 7 case MoveDelayed(_) => 7 case AddMark => 6
    case Release => 5 case Forget => 4 case Done => 0
  }

  type Oracle = Pc -> Outcome

  predicate Starting(pc: Pc) { pc.Refresh? || pc.Acquire? || pc.Read? || pc.Cas? || pc.Send? }

  predicate Writing(pc: Pc) {
    pc.WriteSent? || pc.WriteDlq? || pc.WriteFailed? || pc.WriteGeneric? || pc.CountDbError?
  }

  predicate Disposing(pc: Pc) { pc.Remove? || pc.MoveDlq? || pc.MoveDelayed? }

  predicate Tidying(pc: Pc) { pc.RemoveVis? || pc.ClearMark? || pc.AddMark? || pc.Release? || pc.Forget? }

  /** The worker has taken a copy and has not disposed of it yet. */
  predicate Holding(w: Worker) { Running(w) && !Tidying(w.pc) }

  lemma RankFallsStarting(c: Config, v: View, w: Worker, o: Outcome)
    requires Running(w) && Starting(w.pc)
    ensures Rank(Next(c, v, w, o)) < Rank(w)
  {
  }

  lemma RankFallsWriting(c: Config, v: View, w: Worker, o: Outcome)
    requires Running(w) && Writing(w.pc)
    ensures Rank(Next(c, v, w, o)) < Rank(w)
  {
  }

  lemma RankFallsDisposing(c: Config, v: View, w: Worker, o: Outcome)
    requires Running(w) && Disposing(w.pc)
    ensures Rank(Next(c, v, w, o)) < Rank(w)
  {
  }

  lemma RankFallsTidying(c: Config, v: View, w: Worker, o: Outcome)
    requires Running(w) && Tidying(w.pc)
    ensures Rank(Next(c, v, w, o)) < Rank(w)
  {
  }

  lemma RankFalls(c: Config, v: View, w: Worker, o: Outcome)
    requires Running(w)
    ensures Rank(Next(c, v, w, o)) < Rank(w)
  {
    if Starting(w.pc) { RankFallsStarting(c, v, w, o); }
    else if Writing(w.pc) { RankFallsWriting(c, v, w, o); }
    else if Disposing(w.pc) { RankFallsDisposing(c, v, w, o); }
    else { RankFallsTidying(c, v, w, o); }
  }

  datatype Finished = Finished(env: Env, worker: Worker, events: seq<Event>)

  /** The worker's calls in a row, each ending as the oracle says. */
  function Solo(c: Config, e: Env, w: Worker, o: Oracle): Finished
    decreases Rank(w)
  {
    if !Running(w) then Finished(e, w, [])
    else
      var s := WStep(c, e, w, o(w.pc));
      RankFalls(c, See(e.(now := e.now + o(w.pc).elapsed), w.id), w, o(w.pc));
      var rest := Solo(c, s.env, s.worker, o);
      rest.(events := [s.event] + rest.events)
  }
}
