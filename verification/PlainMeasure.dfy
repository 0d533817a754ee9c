/** The plainer measure, without the distinction that `Termination.Measure` makes: it does not always
    fall, and this is exactly when. */
module PlainMeasure {
  import opened Base
  import opened Records
  import opened Process
  import opened OneEmail
  import opened Disposition
  import opened ProcessEmails
  import opened Termination
  import L = Limits
  import P = Pipeline

  function Retries(rec: Option<Record>): nat { if rec.Some? then rec.value.retryCount else 0 }

  function Plain(c: Config, rec: Option<Record>, errors: nat): int {
    (c.maxRetries - Retries(rec)) * c.maxRetries + c.maxRetries - errors
  }

  predicate PlainFalls(c: Config, v0: View, v: View, errors: nat) {
    Plain(c, v.rec, errors) < Plain(c, v0.rec, v0.errors)
  }

  /** The send ends in an exception that is not an SMTP error, and the FAILED write of the generic arm
      does not take effect: the email stays SENDING, and the error counter is cleared. */
  predicate GenericLost(c: Config, v0: View, o: Oracle) {
    && Sendable(c, v0.rec) && o(Read).fault.Fine? && o(Cas).fault.Fine?
    && o(Send).smtp.OtherError? && !Applied(o(WriteGeneric).fault)
  }

  /** What the calls so far tell about the oracle. */
  predicate Passed(pc: Pc, o: Oracle) {
    && (pc.Cas? ==> o(Read).fault.Fine?)
    && (pc.Send? || pc.WriteGeneric? ==> o(Read).fault.Fine? && o(Cas).fault.Fine?)
    && (pc.WriteGeneric? ==> o(Send).smtp.OtherError?)
  }

  /** Retries never go back, and a delay has cost a retry or a counted database error. */
  predicate Paid(v0: View, v: View, w: Worker) {
    && w.Busy? && Retries(v.rec) >= Retries(v0.rec)
    && (w.pc.MoveDelayed? ==>
          (w.dbError && v.errors == v0.errors + 1) || (!w.dbError && Retries(v.rec) == Retries(v0.rec) + 1))
  }

  predicate StaysPaid(c: Config, v0: View, v: View, w: Worker, o: Oracle)
    requires Running(w)
  {
    var f := o(w.pc);
    var w' := Next(c, Later(v, f.elapsed), w, f);
    Paid(v0, VStep(c, v, w, f), w') && Passed(w'.pc, o)
  }

  lemma PaidAcquire(c: Config, v0: View, v: View, w: Worker, o: Oracle)
    requires Running(w) && Underway(c, v0, v, w) && Paid(v0, v, w) && SmoothAt(w.pc, o(w.pc))
    requires w.pc.Acquire? && !Taken(Later(v, o(Acquire).elapsed))
    ensures StaysPaid(c, v0, v, w, o)
  {
    hide Measure, ContendedDelay;
  }

  lemma PaidRead(c: Config, v0: View, v: View, w: Worker, o: Oracle)
    requires Running(w) && w.pc.Read? && Paid(v0, v, w) && SmoothAt(w.pc, o(w.pc))
    ensures StaysPaid(c, v0, v, w, o)
  {
    assert Next(c, Later(v, o(Read).elapsed), w, o(Read)) == AfterRead(c, Later(v, o(Read).elapsed), w, o(Read));
  }

  lemma PaidCas(c: Config, v0: View, v: View, w: Worker, o: Oracle)
    requires Running(w) && w.pc.Cas? && Passed(w.pc, o) && Paid(v0, v, w) && SmoothAt(w.pc, o(w.pc))
    ensures StaysPaid(c, v0, v, w, o)
  {
  }

  lemma PaidSend(c: Config, v0: View, v: View, w: Worker, o: Oracle)
    requires Running(w) && w.pc.Send? && Passed(w.pc, o) && Paid(v0, v, w)
    ensures StaysPaid(c, v0, v, w, o)
  {
  }

  lemma PaidWriting(c: Config, v0: View, v: View, w: Worker, o: Oracle)
    requires Running(w) && Underway(c, v0, v, w) && Paid(v0, v, w) && Passed(w.pc, o) && SmoothAt(w.pc, o(w.pc))
    requires w.pc.WriteSent? || w.pc.WriteDlq? || w.pc.WriteFailed?
    ensures StaysPaid(c, v0, v, w, o)
  {
    hide Measure, BackoffDelay;
  }

  lemma PaidGeneric(c: Config, v0: View, v: View, w: Worker, o: Oracle)
    requires Running(w) && Underway(c, v0, v, w) && Paid(v0, v, w) && Passed(w.pc, o)
    requires w.pc.WriteGeneric? && !GenericLost(c, v0, o)
    ensures StaysPaid(c, v0, v, w, o)
  {
    hide Measure, BackoffDelay;
  }

  lemma PaidCount(c: Config, v0: View, v: View, w: Worker, o: Oracle)
    requires Running(w) && Underway(c, v0, v, w) && Paid(v0, v, w) && SmoothAt(w.pc, o(w.pc)) && w.pc.CountDbError?
    ensures StaysPaid(c, v0, v, w, o)
  {
    hide Measure, BackoffDelay;
  }

  lemma PaidStep(c: Config, v0: View, v: View, w: Worker, o: Oracle)
    requires Running(w) && Underway(c, v0, v, w) && Paid(v0, v, w) && Passed(w.pc, o) && SmoothAt(w.pc, o(w.pc))
    requires w.pc.Acquire? ==> !Taken(Later(v, o(Acquire).elapsed))
    requires (Starting(w.pc) || Writing(w.pc)) && !GenericLost(c, v0, o)
    ensures StaysPaid(c, v0, v, w, o)
  {
    hide Underway, Paid, StaysPaid, Passed, GenericLost, SmoothAt;
    match w.pc
    case Acquire => PaidAcquire(c, v0, v, w, o);
    case Read => PaidRead(c, v0, v, w, o);
    case Cas => PaidCas(c, v0, v, w, o);
    case Send => PaidSend(c, v0, v, w, o);
    case CountDbError => PaidCount(c, v0, v, w, o);
    case WriteGeneric => PaidGeneric(c, v0, v, w, o);
    case Refresh => NotRefresh(c, v0, v, w);
    case _ => PaidWriting(c, v0, v, w, o);
  }

  lemma NotRefresh(c: Config, v0: View, v: View, w: Worker)
    requires Underway(c, v0, v, w)
    ensures !w.pc.Refresh?
  {
  }

  lemma FewerRetriesLeft(m: nat, r0: nat, r: nat)
    requires r0 <= r
    ensures (m - r) * m <= (m - r0) * m
    ensures r == r0 + 1 ==> (m - r) * m == (m - r0) * m - m
  {
    assert (r - r0) * m >= 0;
    assert (m - r0) * m == (m - r) * m + (r - r0) * m;
  }

  lemma PaidFalls(c: Config, v0: View, v: View, w: Worker)
    requires Paid(v0, v, w) && w.pc.MoveDelayed? && v0.errors < c.maxRetries
    ensures PlainFalls(c, v0, v, Settled(v, w))
  {
    FewerRetriesLeft(c.maxRetries, Retries(v0.rec), Retries(v.rec));
  }

  lemma {:induction false} CallPlain(c: Config, e: Env, v0: View, w: Worker, o: Oracle)
    requires Running(w) && Underway(c, v0, See(e, w.id), w) && Paid(v0, See(e, w.id), w) && Passed(w.pc, o)
    requires Smooth(o) && v0.errors < c.maxRetries && !Tidying(w.pc) && !GenericLost(c, v0, o)
    requires w.pc.Acquire? ==> !Taken(Later(See(e, w.id), o(Acquire).elapsed))
    ensures var s := Solo(c, e, w, o);
            EndingOf(s.events) == Delayed ==> PlainFalls(c, v0, See(s.env, w.id), See(s.env, w.id).errors)
    decreases Rank(w)
  {
    hide Next, Effect, VStep, See, Happens, Underway, PlainFalls, Paid, Passed, GenericLost, Plain, Settled;
    var f, v := o(w.pc), See(e, w.id);
    var s := WStep(c, e, w, f);
    SeesLater(e, w.id, f.elapsed);
    P.SeesStep(c, e, w, f, w.id);
    P.NextKeepsId(c, Later(v, f.elapsed), w, f);
    RankFalls(c, Later(v, f.elapsed), w, f);
    if w.pc.MoveDelayed? {
      PaidFalls(c, v0, v, w);
      DelayEntersTail(c, v0, v, w, f);
      TailEnds(c, s.env, s.worker, o);
      SamePlain(c, v0, v, See(Solo(c, e, w, o).env, w.id), Settled(v, w));
    } else if Disposing(w.pc) {
      EndsOtherwise(c, w, f);
    } else {
      UnderwayOn(c, v0, v, w, f);
      PaidStep(c, v0, v, w, o);
      CallPlain(c, s.env, v0, s.worker, o);
    }
  }

  lemma SamePlain(c: Config, v0: View, v: View, v': View, errors: nat)
    requires PlainFalls(c, v0, v, errors) && v'.rec == v.rec
    ensures PlainFalls(c, v0, v', errors)
  {
  }

  // ----- when it does not fall -----

  /** The worker that could not write FAILED. */
  function Loser(c: Config, e: Env, id: Id, token: Token, o: Oracle): Worker
    requires id in e.db
  {
    Busy(id, MoveDelayed(BackoffDelay(c, 1, o(WriteGeneric))), token, true, e.now + o(Acquire).elapsed, Some(e.db[id]),
         false, true, false, false)
  }

  function EnvAtLoss(c: Config, e: Env, id: Id, token: Token, o: Oracle): Env {
    var e1 := L.EnvAtSend(c, e, id, token, o);
    e1.(now := e1.now + o(Send).elapsed + o(WriteGeneric).elapsed)
  }

  lemma LeadsToLoss(c: Config, e: Env, id: Id, token: Token, o: Oracle)
    requires L.Ready(c, e, id, o) && o(Send).smtp.OtherError? && !Applied(o(WriteGeneric).fault)
    ensures Leads(c, o, e, Start(id, token, Acquire), EnvAtLoss(c, e, id, token, o), Loser(c, e, id, token, o))
  {
    hide Solo, BackoffDelay, L.EnvAtSend;
    var e1, w1 := L.EnvAtSend(c, e, id, token, o), L.AboutToSend(e, id, token, o);
    L.ReadyLeadsToSend(c, e, id, token, o);
    AtSend(c, o, e1, w1);
    AtWriteGeneric(c, o, e1.(now := e1.now + o(Send).elapsed), w1.(pc := WriteGeneric));
  }

  lemma SeesLoss(c: Config, e: Env, id: Id, token: Token, o: Oracle)
    requires L.Ready(c, e, id, o) && Get0(e.keys.dbErrors, id) < c.maxRetries
    ensures var v, w := See(EnvAtLoss(c, e, id, token, o), id), Loser(c, e, id, token, o);
            && Underway(c, See(e, id), v, w) && Settled(v, w) == 0 && Retries(v.rec) == Retries(See(e, id).rec)
  {
    hide Measure, Falls, BackoffDelay;
    FallsByRetry(c, See(e, id), See(EnvAtLoss(c, e, id, token, o), id));
  }

  lemma LossEnds(c: Config, v0: View, e: Env, w: Worker, o: Oracle)
    requires w.Busy? && w.pc.MoveDelayed? && Underway(c, v0, See(e, w.id), w) && Smooth(o)
    ensures var v, v' := See(e, w.id), See(Solo(c, e, w, o).env, w.id); v'.rec == v.rec && v'.errors == Settled(v, w)
  {
    hide Next, Effect, VStep, See, Happens, Underway, Settled;
    var f, v := o(w.pc), See(e, w.id);
    var s := WStep(c, e, w, f);
    SeesLater(e, w.id, f.elapsed);
    P.SeesStep(c, e, w, f, w.id);
    P.NextKeepsId(c, Later(v, f.elapsed), w, f);
    DelayEntersTail(c, v0, v, w, f);
    TailEnds(c, s.env, s.worker, o);
  }

  lemma LostDoesNotFall(c: Config, id: Id, call: Call)
    requires Fair(id, call) && Get0(call.before.keys.dbErrors, id) < c.maxRetries
    requires GenericLost(c, See(call.before, id), call.o)
    ensures var v := See(Finish(c, id, call).env, id); !PlainFalls(c, See(call.before, id), v, v.errors)
  {
    hide Solo, EnvAtLoss, Underway, Settled, Smooth, BackoffDelay;
    var e, o, t := call.before, call.o, call.token;
    assert SmoothAt(Acquire, o(Acquire)) by { SmoothCall(o, Acquire); }
    LeadsToLoss(c, e, id, t, o);
    SeesLoss(c, e, id, t, o);
    LossEnds(c, See(e, id), EnvAtLoss(c, e, id, t, o), Loser(c, e, id, t, o), o);
  }

  lemma SmoothCall(o: Oracle, pc: Pc)
    requires Smooth(o)
    ensures SmoothAt(pc, o(pc))
  {
  }

  /** A smooth call that ends with a delay makes the plain measure fall, unless the generic arm could not
      write FAILED, and then it does not. */
  lemma PlainFallsIff(c: Config, id: Id, call: Call)
    requires Fair(id, call) && EndingOf(Finish(c, id, call).events) == Delayed
    requires Get0(call.before.keys.dbErrors, id) < c.maxRetries
    ensures var v0, v := See(call.before, id), See(Finish(c, id, call).env, id);
            PlainFalls(c, v0, v, v.errors) <==> !GenericLost(c, v0, call.o)
  {
    hide Solo, EndingOf, PlainFalls, GenericLost;
    var v0 := See(call.before, id);
    if GenericLost(c, v0, call.o) {
      LostDoesNotFall(c, id, call);
    } else {
      CallPlain(c, call.before, v0, Start(id, call.token, Acquire), call.o);
    }
  }
}
