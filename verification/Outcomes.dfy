/** What the answer of `process_email` and the fate of its copy say about the email. */
module Outcomes {
  import opened Base
  import opened Records
  import opened Process
  import opened OneEmail
  import opened Disposition
  import P = Pipeline
  import T = Termination

  predicate Is(v: View, status: Status) { v.rec.Some? && v.rec.value.status == status }

  /** A completed copy is one that nobody has to send any more. */
  predicate Settled(v: View, w: Worker)
    requires w.Busy?
  {
    if w.result then Is(v, Status.Sent) else v.rec.None? || Is(v, Sending) || Is(v, Status.Dlq)
  }

  predicate GivenUp(c: Config, v: View, w: Worker)
    requires w.Busy?
  {
    Is(v, Status.Dlq) || (w.dbError && v.errors >= c.maxRetries)
  }

  predicate ToRetry(v: View, w: Worker, contended: bool)
    requires w.Busy?
  {
    Is(v, Failed) || w.dbError || w.guarded || contended
  }

  /** What each way of ending means; `contended` tells that another worker held the lock. */
  predicate Means(c: Config, ev: Event, v: View, w: Worker, contended: bool) {
    w.Busy? &&
    match ev
    case Completed => Settled(v, w)
    case DeadLettered => !w.result && GivenUp(c, v, w)
    case Delayed => !w.result && ToRetry(v, w, contended)
    case _ => true
  }

  /** What is known before each call of a worker that runs undisturbed. */
  predicate Known(c: Config, v: View, w: Worker, contended: bool) {
    w.Busy? && (w.result ==> w.pc.WriteSent? || w.pc.WriteGeneric? || w.pc.CountDbError? || Is(v, Status.Sent)) &&
    match w.pc
    case Acquire => !w.result
    case Read => !w.result
    case Cas => !w.result && v.rec.Some? && !Is(v, Status.Sent)
    case Send => !w.result
    case WriteSent => w.result
    case WriteFailed => !w.result
    case WriteDlq(_) => !w.result
    case Remove => Settled(v, w)
    case MoveDlq => !w.result && GivenUp(c, v, w)
    case MoveDelayed(_) => !w.result && ToRetry(v, w, contended)
    case Forget => !w.dbError
    case Refresh => false
    case _ => true
  }

  predicate StaysKnown(c: Config, v: View, w: Worker, o: Outcome, contended: bool)
    requires Running(w)
  {
    Known(c, VStep(c, v, w, o), Next(c, Later(v, o.elapsed), w, o), contended)
  }

  lemma KnownAcquire(c: Config, v: View, w: Worker, o: Outcome, contended: bool)
    requires Running(w) && w.pc.Acquire? && Known(c, v, w, contended) && (Taken(Later(v, o.elapsed)) ==> contended)
    ensures StaysKnown(c, v, w, o, contended)
  {
    hide ContendedDelay;
  }

  lemma KnownRead(c: Config, v: View, w: Worker, o: Outcome, contended: bool)
    requires Running(w) && w.pc.Read? && Known(c, v, w, contended)
    ensures StaysKnown(c, v, w, o, contended)
  {
    assert Next(c, Later(v, o.elapsed), w, o) == AfterRead(c, Later(v, o.elapsed), w, o);
  }

  lemma KnownCas(c: Config, v: View, w: Worker, o: Outcome, contended: bool)
    requires Running(w) && w.pc.Cas? && Known(c, v, w, contended)
    ensures StaysKnown(c, v, w, o, contended)
  {
  }

  lemma KnownSend(c: Config, v: View, w: Worker, o: Outcome, contended: bool)
    requires Running(w) && w.pc.Send? && Known(c, v, w, contended)
    ensures StaysKnown(c, v, w, o, contended)
  {
  }

  lemma KnownWriting(c: Config, v: View, w: Worker, o: Outcome, contended: bool)
    requires Running(w) && Writing(w.pc) && Known(c, v, w, contended)
    ensures StaysKnown(c, v, w, o, contended)
  {
    hide BackoffDelay;
  }

  lemma KnownStep(c: Config, v: View, w: Worker, o: Outcome, contended: bool)
    requires Running(w) && (Starting(w.pc) || Writing(w.pc)) && Known(c, v, w, contended)
    requires w.pc.Acquire? && Taken(Later(v, o.elapsed)) ==> contended
    ensures StaysKnown(c, v, w, o, contended)
  {
    hide StaysKnown;
    match w.pc
    case Acquire => KnownAcquire(c, v, w, o, contended);
    case Read => KnownRead(c, v, w, o, contended);
    case Cas => KnownCas(c, v, w, o, contended);
    case Send => KnownSend(c, v, w, o, contended);
    case _ => KnownWriting(c, v, w, o, contended);
  }

  /** What the calls after the disposition leave as it is. */
  predicate Same(v: View, w: Worker, v': View, w': Worker) {
    && w.Busy? && w'.Busy?
    && v'.rec == v.rec && w'.result == w.result && w'.dbError == w.dbError && w'.guarded == w.guarded
    && (w.dbError ==> v'.errors == v.errors)
  }

  predicate TailFine(w: Worker) { w.Busy? && !Holding(w) && (w.pc.Forget? ==> !w.dbError) }

  lemma EndsKnown(c: Config, v: View, w: Worker, o: Outcome, contended: bool)
    requires Running(w) && Disposing(w.pc) && Known(c, v, w, contended)
    ensures var v', w' := VStep(c, v, w, o), Next(c, Later(v, o.elapsed), w, o);
            Means(c, Happens(w, o), v', w', contended) && (w'.result ==> Is(v', Status.Sent)) && TailFine(w')
  {
  }

  lemma TailStep(c: Config, v: View, w: Worker, o: Outcome)
    requires Running(w) && TailFine(w)
    ensures var v', w' := VStep(c, v, w, o), Next(c, Later(v, o.elapsed), w, o); Same(v, w, v', w') && TailFine(w')
  {
  }

  lemma {:induction false} TailKeeps(c: Config, e: Env, w: Worker, o: Oracle)
    requires TailFine(w)
    ensures var s := Solo(c, e, w, o); Same(See(e, w.id), w, See(s.env, w.id), s.worker)
    decreases Rank(w)
  {
    hide Next, Effect, VStep, See;
    if Running(w) {
      var f, v := o(w.pc), See(e, w.id);
      var s := WStep(c, e, w, f);
      T.SeesLater(e, w.id, f.elapsed);
      P.SeesStep(c, e, w, f, w.id);
      P.NextKeepsId(c, Later(v, f.elapsed), w, f);
      TailStep(c, v, w, f);
      RankFalls(c, Later(v, f.elapsed), w, f);
      TailKeeps(c, s.env, s.worker, o);
    }
  }

  /** The email as the worker leaves it, and the worker's answer. */
  predicate Concluded(c: Config, ev: Event, v: View, w: Worker, contended: bool) {
    w.Busy? && Means(c, ev, v, w, contended) && (w.result ==> Is(v, Status.Sent))
  }

  lemma ConcludedStays(c: Config, ev: Event, v: View, w: Worker, v': View, w': Worker, contended: bool)
    requires Concluded(c, ev, v, w, contended) && Same(v, w, v', w')
    ensures Concluded(c, ev, v', w', contended)
  {
  }

  lemma StoppedKnown(c: Config, v: View, w: Worker, o: Outcome, w': Worker, contended: bool)
    requires Running(w) && (Starting(w.pc) || Writing(w.pc)) && Known(c, v, w', contended) && !Holding(w')
    requires Ending(Happens(w, o))
    ensures Concluded(c, Happens(w, o), v, w', contended) && TailFine(w')
  {
  }

  /** One call, from any point before its disposition. */
  lemma {:induction false} CallConcludes(c: Config, e: Env, w: Worker, o: Oracle, contended: bool)
    requires Holding(w) && Known(c, See(e, w.id), w, contended)
    requires w.pc.Acquire? && Taken(Later(See(e, w.id), o(Acquire).elapsed)) ==> contended
    ensures var s := Solo(c, e, w, o); Concluded(c, EndingOf(s.events), See(s.env, w.id), s.worker, contended)
    decreases Rank(w)
  {
    hide Next, Effect, VStep, See, Happens, Known, Concluded, Same, TailFine, Tidying;
    var f, v := o(w.pc), See(e, w.id);
    var s, v1 := WStep(c, e, w, f), Later(v, f.elapsed);
    NotRefreshing(c, v, w, contended);
    T.SeesLater(e, w.id, f.elapsed);
    P.SeesStep(c, e, w, f, w.id);
    P.NextKeepsId(c, v1, w, f);
    RankFalls(c, v1, w, f);
    NextConcludes(c, v1, w, f);
    if Disposing(w.pc) {
      EndsKnown(c, v, w, f, contended);
      assert Concluded(c, s.event, See(s.env, w.id), s.worker, contended) by { EndsConcluded(c, v, w, f, contended); }
      TailAfter(c, s, w.id, o, contended);
    } else {
      KnownStep(c, v, w, f, contended);
      if Holding(s.worker) {
        LeavesAcquire(c, v1, w, f);
        CallConcludes(c, s.env, s.worker, o, contended);
      } else {
        StoppedKnown(c, See(s.env, w.id), w, f, s.worker, contended);
        TailAfter(c, s, w.id, o, contended);
      }
    }
  }

  lemma NotRefreshing(c: Config, v: View, w: Worker, contended: bool)
    requires Holding(w) && Known(c, v, w, contended)
    ensures !w.pc.Refresh? && (Starting(w.pc) || Writing(w.pc) || Disposing(w.pc))
  {
  }

  lemma EndsConcluded(c: Config, v: View, w: Worker, o: Outcome, contended: bool)
    requires Running(w) && Disposing(w.pc) && Known(c, v, w, contended)
    ensures Concluded(c, Happens(w, o), VStep(c, v, w, o), Next(c, Later(v, o.elapsed), w, o), contended)
  {
    hide Next, VStep, Happens, Known, Means;
    EndsKnown(c, v, w, o, contended);
  }

  lemma LeavesAcquire(c: Config, v: View, w: Worker, o: Outcome)
    requires Running(w)
    ensures var w' := Next(c, v, w, o); w'.Busy? && Holding(w') && !w.pc.Refresh? ==> !w'.pc.Acquire?
  {
    hide Next;
    RankFalls(c, v, w, o);
  }

  lemma TailAfter(c: Config, s: Stepped, id: Id, o: Oracle, contended: bool)
    requires s.worker.Busy? && s.worker.id == id && TailFine(s.worker) && Ending(s.event)
    requires Concluded(c, s.event, See(s.env, id), s.worker, contended)
    ensures var rest := Solo(c, s.env, s.worker, o);
            Concluded(c, EndingOf([s.event] + rest.events), See(rest.env, id), rest.worker, contended)
  {
    hide See, Solo, Concluded, Same;
    TailKeeps(c, s.env, s.worker, o);
    var rest := Solo(c, s.env, s.worker, o);
    ConcludedStays(c, s.event, See(s.env, id), s.worker, See(rest.env, id), rest.worker, contended);
  }

  /** A whole call. It answers true only for an email that is SENT. A completed copy belongs to an email that is
      SENT, missing, or already in other hands; a dead letter to one that is DLQ or has used up its database
      errors; a delayed copy to one that is FAILED, unless the database failed or another worker held the lock. */
  lemma AnswerMeans(c: Config, e: Env, id: Id, token: Token, o: Oracle)
    ensures var s := Solo(c, e, Start(id, token, Acquire), o);
            var v, w, ev := See(s.env, id), s.worker, EndingOf(s.events);
            && w.Busy?
            && (w.result ==> Is(v, Status.Sent))
            && (ev == Completed ==> v.rec.None? || v.rec.value.status in {Status.Sent, Sending, Status.Dlq})
            && (ev == DeadLettered ==> Is(v, Status.Dlq) || v.errors >= c.maxRetries)
            && (ev == Delayed ==>
                  || Is(v, Failed) || w.dbError || w.guarded
                  || Locks.Held(e.locks, e.now + o(Acquire).elapsed, id))
  {
    hide Solo, EndingOf;
    CallConcludes(c, e, Start(id, token, Acquire), o, Locks.Held(e.locks, e.now + o(Acquire).elapsed, id));
  }
}
