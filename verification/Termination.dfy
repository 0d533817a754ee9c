/** How many calls of `process_email` an email can take. */
module Termination {
  import opened Base
  import opened Records
  import opened Process
  import opened OneEmail
  import opened Disposition
  import P = Pipeline

  // ----- the measure -----

  /** The email can still be sent. */
  predicate Sendable(c: Config, rec: Option<Record>) {
    rec.Some? && Eligible(rec.value.status) && rec.value.retryCount < c.maxRetries
  }

  /** Each retry left is worth `max_retries` database errors; an email that cannot be sent any more only
      has its database errors left. */
  function Measure(c: Config, rec: Option<Record>, errors: nat): int {
    (if Sendable(c, rec) then (c.maxRetries - rec.value.retryCount) * c.maxRetries else 0) + c.maxRetries - errors
  }

  /** The database errors counted once the worker has left through `finally`. */
  function Settled(v: View, w: Worker): nat {
    if w.Busy? && w.dbError then v.errors else 0
  }

  /** A call that ends with a delay has used something up. */
  predicate Falls(c: Config, v0: View, v: View, errors: nat) {
    errors < c.maxRetries && Measure(c, v.rec, errors) < Measure(c, v0.rec, v0.errors)
  }

  /** A retry less is worth more than all database errors. */
  lemma RetryPays(m: nat, r: nat)
    requires r < m
    ensures (m - r) * m == (m - r - 1) * m + m
    ensures (m - r) * m >= m
  {
    var k := m - r - 1;
    assert (k + 1) * m == k * m + m;
    assert k * m >= 0;
  }

  /** The error counter never reaches the limit without the email being given up. */
  predicate Countable(c: Config, v0: View) { c.maxRetries == 0 || v0.errors < c.maxRetries }

  /** One retry further, or not sendable any more. */
  predicate Advanced(c: Config, v0: View, v: View) {
    !Sendable(c, v.rec) || (Sendable(c, v0.rec) && v.rec.value.retryCount == v0.rec.value.retryCount + 1)
  }

  lemma FallsByRetry(c: Config, v0: View, v: View)
    requires Sendable(c, v0.rec) && v0.errors < c.maxRetries && Advanced(c, v0, v)
    ensures Falls(c, v0, v, 0)
  {
    RetryPays(c.maxRetries, v0.rec.value.retryCount);
  }

  lemma FallsByError(c: Config, v0: View, v: View)
    requires (v.rec == v0.rec || Advanced(c, v0, v)) && v0.errors + 1 < c.maxRetries
    ensures Falls(c, v0, v, v0.errors + 1)
  {
    if Sendable(c, v0.rec) { RetryPays(c.maxRetries, v0.rec.value.retryCount); }
  }

  /** What is known before each call of a worker that started with `v0`. */
  predicate Underway(c: Config, v0: View, v: View, w: Worker) {
    w.Busy? && !w.raised &&
    match w.pc
    case Acquire => v.rec == v0.rec && v.errors == v0.errors && !w.dbError
    case Read => v.rec == v0.rec && v.errors == v0.errors && !w.dbError
    case Cas =>
      && v.rec == v0.rec && v.errors == v0.errors && !w.dbError
      && w.seen == v0.rec && v.rec.Some? && v.rec.value.retryCount < c.maxRetries
    case Send => InFlight(c, v0, v, w)
    case WriteSent => InFlight(c, v0, v, w)
    case WriteFailed => InFlight(c, v0, v, w)
    case WriteGeneric => InFlight(c, v0, v, w)
    case WriteDlq(permanent) =>
      if permanent then InFlight(c, v0, v, w)
      else v.rec == v0.rec && v.rec.Some? && v.errors == v0.errors && !w.dbError && !Sendable(c, v.rec)
    case CountDbError =>
      && v.errors == v0.errors
      && (v.rec == v0.rec || Advanced(c, v0, v))
    case MoveDelayed(_) => Falls(c, v0, v, Settled(v, w))
    case Refresh => false
    case _ => true
  }

  predicate InFlight(c: Config, v0: View, v: View, w: Worker)
    requires w.Busy?
  {
    && Sendable(c, v0.rec) && v.rec == Some(v0.rec.value.(status := Sending))
    && w.seen == v0.rec
    && v.errors == v0.errors && !w.dbError
  }

  /** No Redis failure, no lock contention; the database fails with `OperationalError` only, except in
      the generic arm, where any failure is swallowed. */
  predicate SmoothAt(pc: Pc, o: Outcome) {
    match pc
    case Read => o.fault.Fine? || !o.fault.generic
    case Cas => o.fault.Fine? || !o.fault.generic
    case WriteSent => o.fault.Fine? || !o.fault.generic
    case WriteFailed => o.fault.Fine? || !o.fault.generic
    case WriteDlq(_) => o.fault.Fine? || !o.fault.generic
    case WriteGeneric => true
    case _ => o.fault.Fine?
  }

  ghost predicate Smooth(o: Oracle) { forall pc :: SmoothAt(pc, o(pc)) }

  predicate StaysUnderway(c: Config, v0: View, v: View, w: Worker, o: Outcome)
    requires Running(w)
  {
    Underway(c, v0, VStep(c, v, w, o), Next(c, Later(v, o.elapsed), w, o))
  }

  lemma UnderwayAcquire(c: Config, v0: View, v: View, w: Worker, o: Outcome)
    requires Running(w) && w.pc.Acquire? && Underway(c, v0, v, w) && SmoothAt(w.pc, o) && !Taken(Later(v, o.elapsed))
    ensures StaysUnderway(c, v0, v, w, o)
  {
    hide Measure, ContendedDelay;
  }

  lemma UnderwayRead(c: Config, v0: View, v: View, w: Worker, o: Outcome)
    requires Running(w) && w.pc.Read? && Underway(c, v0, v, w) && SmoothAt(w.pc, o)
    ensures StaysUnderway(c, v0, v, w, o)
  {
    hide Measure;
    assert Next(c, Later(v, o.elapsed), w, o) == AfterRead(c, Later(v, o.elapsed), w, o);
  }

  lemma UnderwayCas(c: Config, v0: View, v: View, w: Worker, o: Outcome)
    requires Running(w) && w.pc.Cas? && Underway(c, v0, v, w) && SmoothAt(w.pc, o)
    ensures StaysUnderway(c, v0, v, w, o)
  {
    hide Measure;
  }

  lemma UnderwaySend(c: Config, v0: View, v: View, w: Worker, o: Outcome)
    requires Running(w) && w.pc.Send? && Underway(c, v0, v, w)
    ensures StaysUnderway(c, v0, v, w, o)
  {
    hide Measure;
  }

  lemma UnderwayOutcome(c: Config, v0: View, v: View, w: Worker, o: Outcome)
    requires Running(w) && (w.pc.WriteSent? || w.pc.WriteDlq?) && Underway(c, v0, v, w) && SmoothAt(w.pc, o)
    ensures StaysUnderway(c, v0, v, w, o)
  {
    hide Measure;
  }

  lemma UnderwayWriteFailed(c: Config, v0: View, v: View, w: Worker, o: Outcome)
    requires Running(w) && w.pc.WriteFailed? && Underway(c, v0, v, w) && SmoothAt(w.pc, o) && Countable(c, v0)
    ensures StaysUnderway(c, v0, v, w, o)
  {
    hide Measure, BackoffDelay;
    FallsByRetry(c, v0, VStep(c, v, w, o));
  }

  lemma UnderwayWriteGeneric(c: Config, v0: View, v: View, w: Worker, o: Outcome)
    requires Running(w) && w.pc.WriteGeneric? && Underway(c, v0, v, w) && Countable(c, v0)
    ensures StaysUnderway(c, v0, v, w, o)
  {
    hide Measure, BackoffDelay;
    FallsByRetry(c, v0, VStep(c, v, w, o));
  }

  lemma UnderwayCountDbError(c: Config, v0: View, v: View, w: Worker, o: Outcome)
    requires Running(w) && w.pc.CountDbError? && Underway(c, v0, v, w) && SmoothAt(w.pc, o)
    ensures StaysUnderway(c, v0, v, w, o)
  {
    hide Measure, BackoffDelay;
    if v0.errors + 1 < c.maxRetries { FallsByError(c, v0, VStep(c, v, w, o)); }
  }

  lemma UnderwayStep(c: Config, v0: View, v: View, w: Worker, o: Outcome)
    requires Running(w) && Underway(c, v0, v, w) && SmoothAt(w.pc, o) && Countable(c, v0)
    requires w.pc.Acquire? ==> !Taken(Later(v, o.elapsed))
    requires Starting(w.pc) || Writing(w.pc)
    ensures StaysUnderway(c, v0, v, w, o)
  {
    hide Next, VEffect, Measure, BackoffDelay;
    match w.pc
    case Acquire => UnderwayAcquire(c, v0, v, w, o);
    case Read => UnderwayRead(c, v0, v, w, o);
    case Cas => UnderwayCas(c, v0, v, w, o);
    case Send => UnderwaySend(c, v0, v, w, o);
    case WriteSent => UnderwayOutcome(c, v0, v, w, o);
    case WriteDlq(_) => UnderwayOutcome(c, v0, v, w, o);
    case WriteFailed => UnderwayWriteFailed(c, v0, v, w, o);
    case WriteGeneric => UnderwayWriteGeneric(c, v0, v, w, o);
    case CountDbError => UnderwayCountDbError(c, v0, v, w, o);
  }

  // ----- one call -----

  /** After the disposition the record stays, and the error counter comes to its settled value. */
  predicate Tail(v: View, w: Worker) {
    && w.Busy? && (Tidying(w.pc) || w.pc.Done?)
    && (w.pc.Done? ==> w.dbError || v.errors == 0)
    && (w.pc.Forget? ==> !w.dbError)
  }

  lemma TailStep(c: Config, v: View, w: Worker, o: Outcome)
    requires Running(w) && Tail(v, w) && SmoothAt(w.pc, o)
    ensures var v', w' := VStep(c, v, w, o), Next(c, Later(v, o.elapsed), w, o);
            Tail(v', w') && v'.rec == v.rec && Settled(v', w') == Settled(v, w)
  {
  }

  lemma {:induction false} TailEnds(c: Config, e: Env, w: Worker, o: Oracle)
    requires w.Busy? && Tail(See(e, w.id), w) && Smooth(o)
    ensures var v, v' := See(e, w.id), See(Solo(c, e, w, o).env, w.id);
            v'.rec == v.rec && v'.errors == Settled(v, w)
    decreases Rank(w)
  {
    hide Next, Effect, VStep, See;
    if Running(w) {
      var f, v := o(w.pc), See(e, w.id);
      var s := WStep(c, e, w, f);
      SeesLater(e, w.id, f.elapsed);
      P.SeesStep(c, e, w, f, w.id);
      P.NextKeepsId(c, Later(v, f.elapsed), w, f);
      TailStep(c, v, w, f);
      RankFalls(c, Later(v, f.elapsed), w, f);
      TailEnds(c, s.env, s.worker, o);
    }
  }

  lemma SeesLater(e: Env, x: Id, elapsed: nat)
    ensures See(e.(now := e.now + elapsed), x) == Later(See(e, x), elapsed)
  {
  }

  lemma DelayEntersTail(c: Config, v0: View, v: View, w: Worker, o: Outcome)
    requires Running(w) && w.pc.MoveDelayed? && Underway(c, v0, v, w) && o.fault.Fine?
    ensures var v', w' := VStep(c, v, w, o), Next(c, Later(v, o.elapsed), w, o);
            && Happens(w, o) == Delayed
            && v'.rec == v.rec && Tail(v', w') && Settled(v', w') == Settled(v, w)
  {
    hide Measure;
  }

  lemma EndsOtherwise(c: Config, w: Worker, o: Outcome)
    requires Running(w) && (w.pc.Remove? || w.pc.MoveDlq?) && o.fault.Fine?
    ensures Happens(w, o) == Completed || Happens(w, o) == DeadLettered
  {
  }

  lemma QuietOnTheWay(w: Worker, o: Outcome)
    requires Running(w) && (Starting(w.pc) || Writing(w.pc)) && !w.pc.Refresh? && SmoothAt(w.pc, o)
    ensures !Ending(Happens(w, o))
  {
  }

  lemma UnderwayOn(c: Config, v0: View, v: View, w: Worker, o: Outcome)
    requires Running(w) && Underway(c, v0, v, w) && SmoothAt(w.pc, o) && Countable(c, v0)
    requires w.pc.Acquire? ==> !Taken(Later(v, o.elapsed))
    requires Starting(w.pc) || Writing(w.pc)
    ensures var w' := Next(c, Later(v, o.elapsed), w, o);
            && Underway(c, v0, VStep(c, v, w, o), w')
            && Running(w') && !Tidying(w'.pc) && !w'.pc.Acquire? && !Ending(Happens(w, o))
  {
    hide Next, VEffect, VStep, Measure, BackoffDelay, Happens;
    var v1 := Later(v, o.elapsed);
    UnderwayStep(c, v0, v, w, o);
    QuietOnTheWay(w, o);
    RankFalls(c, v1, w, o);
    if w.pc.Read? { ConcludesRead(c, v1, w, o); }
    else if Starting(w.pc) { ConcludesStarting(c, v1, w, o); }
    else { ConcludesWriting(c, v1, w, o); }
    StaysBusy(c, v1, w, o);
  }

  /** A smooth call that ends with a delay has made the measure fall. */
  lemma {:induction false} CallFalls(c: Config, e: Env, v0: View, w: Worker, o: Oracle)
    requires Running(w) && Underway(c, v0, See(e, w.id), w) && Smooth(o) && Countable(c, v0) && !Tidying(w.pc)
    requires w.pc.Acquire? ==> !Taken(Later(See(e, w.id), o(Acquire).elapsed))
    ensures var s := Solo(c, e, w, o);
            EndingOf(s.events) == Delayed ==> Falls(c, v0, See(s.env, w.id), See(s.env, w.id).errors)
    decreases Rank(w)
  {
    hide Next, Effect, VStep, See, Happens, Underway, Falls;
    var f, v := o(w.pc), See(e, w.id);
    var s := WStep(c, e, w, f);
    SeesLater(e, w.id, f.elapsed);
    P.SeesStep(c, e, w, f, w.id);
    P.NextKeepsId(c, Later(v, f.elapsed), w, f);
    RankFalls(c, Later(v, f.elapsed), w, f);
    if w.pc.MoveDelayed? {
      UnderwayFalls(c, v0, v, w);
      DelayEntersTail(c, v0, v, w, f);
      TailEnds(c, s.env, s.worker, o);
      SameFall(c, v0, v, See(Solo(c, e, w, o).env, w.id), Settled(v, w));
    } else if Disposing(w.pc) {
      EndsOtherwise(c, w, f);
    } else {
      UnderwayOn(c, v0, v, w, f);
      CallFalls(c, s.env, v0, s.worker, o);
    }
  }

  lemma UnderwayFalls(c: Config, v0: View, v: View, w: Worker)
    requires w.Busy? && w.pc.MoveDelayed? && Underway(c, v0, v, w)
    ensures Falls(c, v0, v, Settled(v, w))
  {
  }

  lemma SameFall(c: Config, v0: View, v: View, v': View, errors: nat)
    requires Falls(c, v0, v, errors) && v'.rec == v.rec
    ensures Falls(c, v0, v', errors)
  {
  }

  // ----- a whole run of calls -----

  /** One call of `process_email` on `id`: the stores it starts with, its lock token and its oracle. */
  datatype Call = Call(before: Env, token: Token, o: Oracle)

  function Finish(c: Config, id: Id, call: Call): Finished {
    Solo(c, call.before, Start(id, call.token, Acquire), call.o)
  }

  /** The lock is free when the call asks for it, and the id is in processing. */
  ghost predicate Fair(id: Id, call: Call) {
    && Smooth(call.o) && id in call.before.keys.processing
    && !Locks.Held(call.before.locks, call.before.now + call.o(Acquire).elapsed, id)
  }

  /** Between calls the copy travels through the delayed set and the queue back to processing, which
      leaves the record and the error counter of the id alone. */
  ghost predicate Redelivered(id: Id, after: Env, before: Env) {
    Lookup(before.db, id) == Lookup(after.db, id) && Get0(before.keys.dbErrors, id) == Get0(after.keys.dbErrors, id)
  }

  ghost predicate Calls(c: Config, id: Id, calls: seq<Call>) {
    && (forall i :: 0 <= i < |calls| ==> Fair(id, calls[i]))
    && (forall i :: 0 <= i < |calls| - 1 ==> Redelivered(id, Finish(c, id, calls[i]).env, calls[i + 1].before))
  }

  ghost predicate AllDelayed(c: Config, id: Id, calls: seq<Call>) {
    forall i :: 0 <= i < |calls| ==> EndingOf(Finish(c, id, calls[i]).events) == Delayed
  }

  function MeasureOf(c: Config, e: Env, id: Id): int { Measure(c, Lookup(e.db, id), Get0(e.keys.dbErrors, id)) }

  lemma OneCallFalls(c: Config, id: Id, call: Call)
    requires Fair(id, call) && EndingOf(Finish(c, id, call).events) == Delayed
    requires c.maxRetries == 0 || Get0(call.before.keys.dbErrors, id) < c.maxRetries
    ensures var e' := Finish(c, id, call).env;
            MeasureOf(c, e', id) < MeasureOf(c, call.before, id) && Get0(e'.keys.dbErrors, id) < c.maxRetries
  {
    hide Solo, EndingOf, Measure;
    CallFalls(c, call.before, See(call.before, id), Start(id, call.token, Acquire), call.o);
  }

  lemma {:induction false} MeasureAfter(c: Config, id: Id, calls: seq<Call>, n: nat)
    requires Calls(c, id, calls) && AllDelayed(c, id, calls) && n < |calls| && c.maxRetries > 0
    requires Get0(calls[0].before.keys.dbErrors, id) == 0
    ensures Get0(calls[n].before.keys.dbErrors, id) < c.maxRetries
    ensures MeasureOf(c, calls[n].before, id) <= MeasureOf(c, calls[0].before, id) - n
  {
    hide Measure, Solo, EndingOf;
    if n > 0 {
      MeasureAfter(c, id, calls, n - 1);
      OneCallFalls(c, id, calls[n - 1]);
      assert Redelivered(id, Finish(c, id, calls[n - 1]).env, calls[n - 1 + 1].before);
    }
  }

  lemma MeasureRange(c: Config, rec: Option<Record>, errors: nat)
    requires errors < c.maxRetries
    ensures 1 <= Measure(c, rec, errors) <= c.maxRetries * c.maxRetries + c.maxRetries
  {
    var m := c.maxRetries;
    if Sendable(c, rec) {
      var r := rec.value.retryCount;
      RetryPays(m, r);
      assert (m - r) * m == m * m - r * m;
      assert r * m >= 0;
    }
  }

  /** From a clear error counter, fewer than `max(1, M * (M + 1))` calls can end with a delay, so the
      email has its final disposition after at most that many calls. */
  lemma CallsAreBounded(c: Config, id: Id, calls: seq<Call>)
    requires Calls(c, id, calls) && AllDelayed(c, id, calls)
    requires calls != [] ==> Get0(calls[0].before.keys.dbErrors, id) == 0
    ensures |calls| < Max(1, c.maxRetries * (c.maxRetries + 1))
  {
    var m, n := c.maxRetries, |calls|;
    assert m * (m + 1) == m * m + m;
    if n > 0 && m == 0 {
      OneCallFalls(c, id, calls[0]);
      assert false;
    } else if n > 0 {
      MeasureAfter(c, id, calls, n - 1);
      OneCallFalls(c, id, calls[n - 1]);
      var e' := Finish(c, id, calls[n - 1]).env;
      MeasureRange(c, Lookup(calls[0].before.db, id), 0);
      MeasureRange(c, Lookup(e'.db, id), Get0(e'.keys.dbErrors, id));
    }
  }

  /** The email is done with: its copy was completed or is a dead letter. */
  predicate Final(ev: Event) { ev == Completed || ev == DeadLettered }

  ghost predicate IsFinal(c: Config, id: Id, call: Call) { Final(EndingOf(Finish(c, id, call).events)) }

  lemma SmoothIsNotGivenUp(at: Option<Pc>, o: Oracle, w: Worker)
    requires Smooth(o)
    ensures !GivenUpAt(at, o, w)
  {
    if at.Some? {
      var pc := at.value;
      assert SmoothAt(pc, o(pc));
    }
  }

  /** A fair call delays its copy or is final. */
  lemma DelayedOrFinal(c: Config, id: Id, call: Call)
    requires Fair(id, call)
    ensures EndingOf(Finish(c, id, call).events) == Delayed || IsFinal(c, id, call)
  {
    hide Solo, EndingOf, Endings, StrandedAt, Settles, GivenUpAt;
    var e, w := call.before, Start(id, call.token, Acquire);
    SoloSettles(c, e, w, call.o);
    SmoothIsNotGivenUp(StrandedAt(c, e, w, call.o), call.o, Solo(c, e, w, call.o).worker);
  }

  /** So among the first `max(1, M * (M + 1))` calls there is a final one. */
  lemma CallsAreFinal(c: Config, id: Id, calls: seq<Call>)
    requires Calls(c, id, calls) && |calls| == Max(1, c.maxRetries * (c.maxRetries + 1))
    requires Get0(calls[0].before.keys.dbErrors, id) == 0
    ensures exists i :: 0 <= i < |calls| && IsFinal(c, id, calls[i])
  {
    hide Fair, IsFinal, Redelivered, Finish, EndingOf;
    if forall i :: 0 <= i < |calls| ==> !IsFinal(c, id, calls[i]) {
      forall i | 0 <= i < |calls| ensures EndingOf(Finish(c, id, calls[i]).events) == Delayed {
        DelayedOrFinal(c, id, calls[i]);
      }
      CallsAreBounded(c, id, calls);
    }
  }
}
