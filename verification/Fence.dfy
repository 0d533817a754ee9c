/** At most one accepted send per email. */
module Fence {
  import opened Records
  import opened Process
  import opened OneEmail

  /** What a worker can still do to the status of its email. */
  datatype Role =
    | Bystander
    | Sender       // the compare-and-set succeeded, the SMTP call comes next
    | Sealer       // the SMTP server accepted, SENT comes next
    | Loser        // the SMTP call failed, FAILED or DLQ comes next
    | Clerk        // retries are used up, DLQ comes next

  function RoleOf(w: Worker): Role {
    if w.Idle? then Bystander else
    match w.pc
    case Send => Sender
    case WriteSent => Sealer
    case WriteFailed => Loser
    case WriteGeneric => Loser
    case WriteDlq(permanent) => if permanent then Loser else Clerk
    case _ => Bystander
  }

  /** Between the compare-and-set and the outcome write. */
  predicate InFlight(r: Role) { r.Sender? || r.Sealer? || r.Loser? }

  predicate Within(v: View, statuses: set<Status>) { v.rec.Some? && v.rec.value.status in statuses }

  predicate KeepsOr(v: View, v': View, statuses: set<Status>) {
    v'.rec == v.rec || (v.rec.Some? && Within(v', statuses))
  }

  /** A worker's call, as far as the fence is concerned. */
  predicate Moves(v: View, r: Role, v': View, r': Role, ev: Event) {
    && (ev == Accepted <==> r'.Sealer?)
    && (ev == Accepted || ev == Attempted ==> r.Sender?)
    && match r
       case Bystander =>
         && !r'.Sealer? && !r'.Loser?
         && KeepsOr(v, v', {Sending}) && (v'.rec != v.rec ==> Hit(v))
         && (r'.Sender? ==> Hit(v) && Within(v', {Sending}))
         && (r'.Clerk? ==> v'.rec.Some?)
       case Sender => v'.rec == v.rec && (r'.Sealer? || r'.Loser?)
       case Sealer => r'.Bystander? && KeepsOr(v, v', {Status.Sent})
       case Loser => r'.Bystander? && KeepsOr(v, v', {Failed, Status.Dlq})
       case Clerk => r'.Bystander? && KeepsOr(v, v', {Status.Dlq})
  }

  /** The worker's database calls fail with `OperationalError` only; in the generic arm any failure is
      swallowed. */
  predicate NoGenericFault(w: Worker, o: Outcome) {
    w.Busy? && !w.pc.WriteGeneric? ==> !(o.fault.Fails? && o.fault.generic)
  }

  predicate MovesWell(c: Config, v: View, w: Worker, o: Outcome)
    requires Running(w)
  {
    Moves(v, RoleOf(w), VStep(c, v, w, o), RoleOf(Next(c, Later(v, o.elapsed), w, o)), Happens(w, o))
  }

  lemma MovesRead(c: Config, v: View, w: Worker, o: Outcome)
    requires Running(w) && NoGenericFault(w, o) && w.pc.Read?
    ensures MovesWell(c, v, w, o)
  {
    assert Next(c, Later(v, o.elapsed), w, o) == AfterRead(c, Later(v, o.elapsed), w, o);
  }

  lemma MovesSend(c: Config, v: View, w: Worker, o: Outcome)
    requires Running(w) && w.pc.Send?
    ensures MovesWell(c, v, w, o)
  {
    assert Next(c, Later(v, o.elapsed), w, o) == AfterSend(w, o);
  }

  lemma MovesStarting(c: Config, v: View, w: Worker, o: Outcome)
    requires Running(w) && NoGenericFault(w, o) && (w.pc.Refresh? || w.pc.Acquire? || w.pc.Cas?)
    ensures MovesWell(c, v, w, o)
  {
    hide ContendedDelay;
  }

  lemma MovesWriting(c: Config, v: View, w: Worker, o: Outcome)
    requires Running(w) && NoGenericFault(w, o) && Writing(w.pc)
    requires w.pc.WriteDlq? || w.pc.WriteSent? || w.pc.WriteFailed? ==> v.rec.Some?
    ensures MovesWell(c, v, w, o)
  {
    hide BackoffDelay;
  }

  lemma MovesDisposing(c: Config, v: View, w: Worker, o: Outcome)
    requires Running(w) && Disposing(w.pc)
    ensures MovesWell(c, v, w, o)
  {
  }

  lemma MovesTidying(c: Config, v: View, w: Worker, o: Outcome)
    requires Running(w) && Tidying(w.pc)
    ensures MovesWell(c, v, w, o)
  {
  }

  /** The other workers on the email, and the one that moved. */
  predicate Crewed(crew: map<nat, Worker>, crew': map<nat, Worker>, wid: nat, r': Role) {
    && (forall k :: k in crew' && k != wid ==> k in crew && crew'[k] == crew[k])
    && (wid in crew' ==> RoleOf(crew'[wid]) == r')
  }

  ghost predicate Inv(l: Lone) {
    && (forall k :: k in l.crew && InFlight(RoleOf(l.crew[k])) ==> Within(l.view, {Sending, Status.Dlq}))
    && (forall j, k ::
          j in l.crew && k in l.crew && InFlight(RoleOf(l.crew[j])) && InFlight(RoleOf(l.crew[k])) ==> j == k)
    && (forall k :: k in l.crew && RoleOf(l.crew[k]).Clerk? ==> l.view.rec.Some?)
    && (forall k :: k in l.crew && RoleOf(l.crew[k]).Sealer? ==> l.hist.accepted == 1)
    && l.hist.accepted <= 1
    && (l.hist.accepted == 1 ==> Within(l.view, {Sending, Status.Sent, Status.Dlq}))
    && (l.hist.accepted == 1 ==> forall k :: k in l.crew && InFlight(RoleOf(l.crew[k])) ==> RoleOf(l.crew[k]).Sealer?)
  }

  lemma KeptByMove(l: Lone, l': Lone, wid: nat, r': Role, ev: Event)
    requires Inv(l) && wid in l.crew && Moves(l.view, RoleOf(l.crew[wid]), l'.view, r', ev)
    requires Crewed(l.crew, l'.crew, wid, r')
    requires l'.hist.accepted == l.hist.accepted + (if ev == Accepted then 1 else 0)
    ensures Inv(l')
  {
  }

  /** Steps other than workers' calls leave these alone, or only touch an email nobody is sending. */
  lemma KeptByOthers(l: Lone, l': Lone)
    requires Inv(l)
    requires forall k :: k in l'.crew ==> RoleOf(l'.crew[k]).Bystander? || (k in l.crew && l'.crew[k] == l.crew[k])
    requires l'.hist.accepted == l.hist.accepted
    requires l'.view.rec == l.view.rec || (Hit(l.view) && l'.view.rec.Some?) || (l.view.rec.None? && l'.crew == map[])
    ensures Inv(l')
  {
  }

  /** Steps under which the fence holds: no generic database exception in a worker, and neither a
      submission's FAILED write nor a sweeper action that does not skip the record comes to a status
      from which the email may not be sent any more. */
  predicate Gentle(l: Lone, a: Act) {
    match a
    case Work(wid, o) => wid in l.crew ==> NoGenericFault(l.crew[wid], o)
    case Submit(sid, _) => sid in l.subs && l.subs[sid] == ToFail && l.view.rec.Some? ==> Hit(l.view)
    case Sweep(s) => Skips(l.view, s) || Hit(l.view)
    case _ => true
  }

  lemma KeptByWork(c: Config, l: Lone, wid: nat, o: Outcome)
    requires LEnabled(c, l, Work(wid, o)) && Inv(l) && Gentle(l, Work(wid, o))
    ensures Inv(LWork(c, l, wid, o))
  {
    var w, l' := l.crew[wid], LWork(c, l, wid, o);
    if w.pc.Read? { MovesRead(c, l.view, w, o); }
    else if w.pc.Send? { MovesSend(c, l.view, w, o); }
    else if Starting(w.pc) { MovesStarting(c, l.view, w, o); }
    else if Writing(w.pc) { MovesWriting(c, l.view, w, o); }
    else if Disposing(w.pc) { MovesDisposing(c, l.view, w, o); }
    else { MovesTidying(c, l.view, w, o); }
    KeptByMove(l, l', wid, RoleOf(Next(c, Later(l.view, o.elapsed), w, o)), Happens(w, o));
  }

  lemma Kept(c: Config, l: Lone, a: Act)
    requires LEnabled(c, l, a) && Inv(l) && Gentle(l, a)
    ensures Inv(LStep(c, l, a))
  {
    if a.Work? {
      KeptByWork(c, l, a.wid, a.o);
    } else {
      KeptByOthers(l, LStep(c, l, a));
    }
  }
}
