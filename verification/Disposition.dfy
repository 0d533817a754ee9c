/** What one undisturbed call of `process_email` does with the copy it was given. */
module Disposition {
  import opened Base
  import opened Lists
  import opened Records
  import opened Queue
  import opened Process

  predicate Ending(ev: Event) { ev == Completed || ev == Delayed || ev == DeadLettered || ev == Stranded }

  function Endings(events: seq<Event>): nat {
    if events == [] then 0 else (if Ending(events[0]) then 1 else 0) + Endings(events[1..])
  }

  /** How the copy ended; `Quiet` while it has not. */
  function EndingOf(events: seq<Event>): Event {
    if events == [] then Quiet else if Ending(events[0]) then events[0] else EndingOf(events[1..])
  }

  /** What each ending does to the copies of `id`. */
  predicate Settles(k: Keys, k': Keys, id: Id, ev: Event) {
    && k'.queue == k.queue
    && match ev
       case Completed => k'.processing == LRem1(k.processing, id) && k'.delayed == k.delayed && k'.dlq == k.dlq
       case Delayed =>
         && k'.processing == LRem1(k.processing, id) && k'.dlq == k.dlq
         && id in k'.delayed && k'.delayed == k.delayed[id := k'.delayed[id]]
       case DeadLettered =>
         k'.processing == LRem1(k.processing, id) && k'.delayed == k.delayed && k'.dlq == LPush(k.dlq, id)
       case _ => k'.processing == k.processing && k'.delayed == k.delayed && k'.dlq == k.dlq
  }

  /** The Redis calls whose failure can leave a copy where it is. */
  predicate RedisMove(pc: Pc) { pc.Acquire? || pc.CountDbError? || Disposing(pc) }

  /** A call that leaves the copy where it is: Redis failed, a move had no effect, and the worker raises
      unless it is in the generic arm, which swallows the failure of its move. */
  predicate GivesUp(pc: Pc, f: Fault, w: Worker) {
    && RedisMove(pc) && f.Fails? && (Disposing(pc) ==> !Applied(f))
    && w.Busy? && (w.raised || (w.guarded && Disposing(pc)))
  }

  /** Control: the one ending happens when the worker lets its copy go. */
  predicate Concludes(w: Worker, w': Worker, ev: Event, f: Fault) {
    && (w'.Busy? && w.Busy? ==> w'.id == w.id)
    && (Ending(ev) <==> Holding(w) && !Holding(w'))
    && (Holding(w') ==> Holding(w))
    && (ev == Stranded ==> w'.Busy? && w.Busy? && GivesUp(w.pc, f, w'))
    && (w.Busy? && w'.Busy? && (w.raised ==> w'.raised) && (w.guarded ==> w'.guarded))
  }

  predicate StepConcludes(c: Config, v: View, w: Worker, o: Outcome)
    requires Running(w)
  {
    var w' := Next(c, v, w, o);
    w'.Busy? ==> Concludes(w, w', Happens(w, o), o.fault)
  }

  lemma ConcludesRead(c: Config, v: View, w: Worker, o: Outcome)
    requires Running(w) && w.pc.Read?
    ensures StepConcludes(c, v, w, o)
  {
    assert Next(c, v, w, o) == AfterRead(c, v, w, o);
  }

  lemma ConcludesStarting(c: Config, v: View, w: Worker, o: Outcome)
    requires Running(w) && Starting(w.pc) && !w.pc.Read?
    ensures StepConcludes(c, v, w, o)
  {
    hide AfterRead, ContendedDelay;
  }

  lemma ConcludesWriting(c: Config, v: View, w: Worker, o: Outcome)
    requires Running(w) && Writing(w.pc)
    ensures StepConcludes(c, v, w, o)
  {
    hide BackoffDelay, Rewritten;
  }

  lemma ConcludesDisposing(c: Config, v: View, w: Worker, o: Outcome)
    requires Running(w) && Disposing(w.pc)
    ensures StepConcludes(c, v, w, o)
  {
  }

  lemma ConcludesTidying(c: Config, v: View, w: Worker, o: Outcome)
    requires Running(w) && Tidying(w.pc)
    ensures StepConcludes(c, v, w, o)
  {
  }

  predicate EffectSettles(c: Config, e: Env, w: Worker, o: Outcome)
    requires Running(w)
  {
    Settles(e.keys, if Applied(o.fault) then Effect(c, e, w, o).keys else e.keys, w.id, Happens(w, o))
  }

  lemma SettlesDisposing(c: Config, e: Env, w: Worker, o: Outcome)
    requires Running(w) && Disposing(w.pc) && w.id in e.keys.processing
    ensures EffectSettles(c, e, w, o)
  {
    hide LRem1;
  }

  lemma SettlesOtherwise(c: Config, e: Env, w: Worker, o: Outcome)
    requires Running(w) && !Disposing(w.pc)
    ensures EffectSettles(c, e, w, o)
  {
    hide Update, Transition, Locks.Acquire, Locks.Release;
  }

  lemma NextConcludes(c: Config, v: View, w: Worker, o: Outcome)
    requires Running(w) && !w.pc.Refresh?
    ensures Next(c, v, w, o).Busy? && Concludes(w, Next(c, v, w, o), Happens(w, o), o.fault)
  {
    hide Next, Concludes;
    if w.pc.Read? { ConcludesRead(c, v, w, o); }
    else if Starting(w.pc) { ConcludesStarting(c, v, w, o); }
    else if Writing(w.pc) { ConcludesWriting(c, v, w, o); }
    else if Disposing(w.pc) { ConcludesDisposing(c, v, w, o); }
    else { ConcludesTidying(c, v, w, o); }
    StaysBusy(c, v, w, o);
  }

  lemma Step(c: Config, e: Env, w: Worker, o: Outcome)
    requires Running(w) && !w.pc.Refresh? && (Holding(w) ==> w.id in e.keys.processing)
    ensures var s := WStep(c, e, w, o);
            s.worker.Busy? && Concludes(w, s.worker, s.event, o.fault) && Settles(e.keys, s.env.keys, w.id, s.event)
  {
    hide Effect, Next;
    var e1 := e.(now := e.now + o.elapsed);
    NextConcludes(c, See(e1, w.id), w, o);
    if Disposing(w.pc) { SettlesDisposing(c, e1, w, o); } else { SettlesOtherwise(c, e1, w, o); }
  }

  lemma StaysBusy(c: Config, v: View, w: Worker, o: Outcome)
    requires Running(w) && !w.pc.Refresh?
    ensures Next(c, v, w, o).Busy?
  {
    hide BackoffDelay, Rewritten;
  }

  /** The call at which an undisturbed worker gives its copy up, if there is one. */
  function StrandedAt(c: Config, e: Env, w: Worker, o: Oracle): Option<Pc>
    decreases Rank(w)
  {
    if !Running(w) then None
    else
      var s := WStep(c, e, w, o(w.pc));
      RankFalls(c, See(e.(now := e.now + o(w.pc).elapsed), w.id), w, o(w.pc));
      if s.event == Stranded then Some(w.pc) else StrandedAt(c, s.env, s.worker, o)
  }

  /** After the disposition nothing touches the copies any more. */
  lemma {:induction false} TailSettles(c: Config, e: Env, w: Worker, o: Oracle)
    requires w.Busy? && !Holding(w)
    ensures var s := Solo(c, e, w, o);
            && Settles(e.keys, s.env.keys, w.id, Quiet) && Endings(s.events) == 0 && EndingOf(s.events) == Quiet
            && s.worker.Busy? && (w.raised ==> s.worker.raised) && (w.guarded ==> s.worker.guarded)
            && StrandedAt(c, e, w, o) == None
    decreases Rank(w)
  {
    hide Next, Effect, See;
    if Running(w) {
      Step(c, e, w, o(w.pc));
      RankFalls(c, See(e.(now := e.now + o(w.pc).elapsed), w.id), w, o(w.pc));
      var s := WStep(c, e, w, o(w.pc));
      TailSettles(c, s.env, s.worker, o);
    }
  }

  /** The copy was given up at the call `at`. */
  predicate GivenUpAt(at: Option<Pc>, o: Oracle, w: Worker) { at.Some? && GivesUp(at.value, o(at.value).fault, w) }

  /** A worker that holds a copy ends it exactly once. The copy stays where it is only if the worker came to
      a Redis call that failed, before the copy was disposed of. */
  lemma {:induction false} SoloSettles(c: Config, e: Env, w: Worker, o: Oracle)
    requires Holding(w) && !w.pc.Refresh? && w.id in e.keys.processing
    ensures var s := Solo(c, e, w, o);
            && Endings(s.events) == 1 && Ending(EndingOf(s.events))
            && Settles(e.keys, s.env.keys, w.id, EndingOf(s.events))
            && s.worker.Busy?
            && (EndingOf(s.events) == Stranded <==> StrandedAt(c, e, w, o).Some?)
            && (EndingOf(s.events) == Stranded ==> GivenUpAt(StrandedAt(c, e, w, o), o, s.worker))
    decreases Rank(w)
  {
    hide Next, Effect, See;
    Step(c, e, w, o(w.pc));
    RankFalls(c, See(e.(now := e.now + o(w.pc).elapsed), w.id), w, o(w.pc));
    var s := WStep(c, e, w, o(w.pc));
    if Holding(s.worker) {
      NeverBackToRefresh(c, See(e.(now := e.now + o(w.pc).elapsed), w.id), w, o(w.pc));
      SoloSettles(c, s.env, s.worker, o);
    } else {
      TailSettles(c, s.env, s.worker, o);
    }
  }

  lemma NeverBackToRefresh(c: Config, v: View, w: Worker, o: Outcome)
    requires Running(w)
    ensures var w' := Next(c, v, w, o); w'.Busy? ==> !w'.pc.Refresh?
  {
    RankFalls(c, v, w, o);
  }
}
