/** The history of a single email: what the steps of workers, submitters, reaper, mover and sweeper do
    to the `View` of one id. Steps that concern other ids appear as `Pass`. */
module OneEmail {
  import opened Base
  import opened Records
  import opened Locks
  import opened Process

  /** A submission (`send_email` in the API) after its QUEUED write. */
  datatype Submitting = ToPush | ToMark | ToFail

  /** How the calls of one per-record sweeper action end. */
  datatype Swept = Swept(check: Fault, push: Fault, mark: Fault, write: Fault)

  /** Bookkeeping that no store holds. `lost` says that the latest push of the id has had no marker
      update since; `byWorker` that it was a worker that brought the record to FAILED; `notBefore` is the
      score of the latest delay. */
  datatype History = History(
    attempts: nat, accepted: nat, pushes: nat, completes: nat, collapses: nat,
    lost: bool, byWorker: bool, notBefore: int)

  datatype Lone = Lone(
    id: Id, view: View, crew: map<nat, Worker>, subs: map<nat, Submitting>, hist: History, next: Token)

  datatype Act =
    | Work(wid: nat, o: Outcome)      // one call of a worker on this id
    | Take(wid: nat, ok: bool)        // BLMOVE took this id; without `ok` its reply was lost
    | Crash(wid: nat)
    | Reap                            // the reaper found this id expired
    | Ready                           // the delayed mover found this id ready
    | Create(rec: Record)             // create_email inserted the record
    | Admit(sid: nat, f: Fault)       // PENDING seen and QUEUED written
    | Submit(sid: nat, f: Fault)      // next call of the submission
    | Abort(sid: nat)                 // the API process dies
    | Sweep(s: Swept)
    | Pass(elapsed: nat, next: Token)

  // ----- the view after each kind of step -----

  function VWrite(v: View, base: Option<Record>, status: Status, increment: bool): View {
    if v.rec.None? then v else v.(rec := Some(Rewritten(v.rec.value, base, status, increment)))
  }

  function VEffect(c: Config, v: View, w: Worker, o: Outcome): View
    requires Running(w)
  {
    match w.pc
    case Refresh => v
    case Acquire => if Taken(v) then v else v.(lease := Some(Lease(w.token, v.now + c.lockTtl)))
    case Read => v
    case Cas => if Hit(v) then v.(rec := Some(v.rec.value.(status := Sending))) else v
    case Send => v
    case WriteSent => VWrite(v, Basis(w, o), Status.Sent, false)
    case WriteDlq(_) => VWrite(v, Basis(w, o), Status.Dlq, false)
    case WriteFailed => VWrite(v, Basis(w, o), Failed, true)
    case WriteGeneric => VWrite(v, None, Failed, true)
    case CountDbError => v.(errors := v.errors + 1)
    case Remove => if v.processing > 0 then v.(processing := v.processing - 1) else v
    case MoveDlq => if v.processing > 0 then v.(processing := v.processing - 1, dead := v.dead + 1) else v
    case MoveDelayed(d) =>
      if v.processing > 0 then v.(processing := v.processing - 1, delayed := Some(v.now + d)) else v
    case RemoveVis => v
    case ClearMark => v.(marked := false)
    case AddMark => v.(marked := true)
    case Release => if Taken(v) && v.lease.value.token == w.token then v.(lease := None) else v
    case Forget => v.(errors := 0)
  }

  function Later(v: View, elapsed: nat): View { v.(now := v.now + elapsed) }

  function VStep(c: Config, v: View, w: Worker, o: Outcome): View
    requires Running(w)
  {
    var v1 := Later(v, o.elapsed);
    if Applied(o.fault) then VEffect(c, v1, w, o) else v1
  }

  function VTake(v: View): View {
    if v.queued > 0 then v.(queued := v.queued - 1, processing := v.processing + 1) else v
  }

  function VReap(v: View): View {
    if v.processing > 0 then v.(processing := v.processing - 1, queued := v.queued + 1) else v
  }

  predicate OpenView(v: View) { v.rec.Some? && v.rec.value.status in {Pending, Queued} }

  function VSetStatus(v: View, s: Status, sweeps: nat): View
    requires v.rec.Some?
  {
    v.(rec := Some(v.rec.value.(status := s, sweeps := sweeps)))
  }

  /** Push, marker and database block of the sweeper, cut short where a call fails. */
  function VSweep(c: Config, v: View, o: Swept): View
    requires v.rec.Some?
  {
    var n := v.rec.value.sweeps;
    if o.check.Fails? || v.marked then v
    else if n >= c.maxSweeps then
      if Applied(o.write) then VSetStatus(v, Failed, n) else v
    else
      var v1 := if Applied(o.push) then v.(queued := v.queued + 1) else v;
      if o.push.Fails? then v1 else
      var v2 := if Applied(o.mark) then v1.(marked := true) else v1;
      if o.mark.Fails? then v2 else
      if Applied(o.write) then VSetStatus(v2, Queued, n + 1) else v2
  }

  predicate Sweeps(c: Config, v: View, o: Swept) {
    v.rec.Some? && o.check.Fine? && !v.marked && v.rec.value.sweeps < c.maxSweeps && Applied(o.push)
  }

  /** The sweeper leaves the record alone: it is marked, or the check failed. */
  predicate Skips(v: View, o: Swept) { o.check.Fails? || v.marked }

  /** The sweeper writes FAILED. */
  predicate SweptOut(c: Config, v: View, o: Swept) {
    v.rec.Some? && !Skips(v, o) && v.rec.value.sweeps >= c.maxSweeps && Applied(o.write)
  }

  // ----- bookkeeping -----

  function NoteWork(h: History, v: View, w: Worker, o: Outcome): History
    requires Running(w)
  {
    var ev := Happens(w, o);
    var moved := v.processing > 0 && Applied(o.fault);
    h.(attempts := if ev == Attempted || ev == Accepted then h.attempts + 1 else h.attempts,
       accepted := if ev == Accepted then h.accepted + 1 else h.accepted,
       completes := if w.pc.Remove? && moved then h.completes + 1 else h.completes,
       collapses := if w.pc.MoveDelayed? && moved && v.delayed.Some? then h.collapses + 1 else h.collapses,
       notBefore := if w.pc.MoveDelayed? && moved then v.now + o.elapsed + w.pc.delay else h.notBefore,
       lost := if w.pc.AddMark? && Applied(o.fault) then false else h.lost,
       byWorker := h.byWorker || ((w.pc.WriteFailed? || w.pc.WriteGeneric?) && Applied(o.fault) && v.rec.Some?))
  }

  // ----- steps -----

  function Manned(crew: map<nat, Worker>, wid: nat, w: Worker): map<nat, Worker> {
    if Running(w) then crew[wid := w] else crew - {wid}
  }

  predicate LEnabled(c: Config, l: Lone, a: Act) {
    match a
    case Work(wid, _) => wid in l.crew && Running(l.crew[wid])
    case Take(wid, _) => wid !in l.crew && l.view.queued > 0
    case Crash(wid) => wid in l.crew
    case Reap => true
    case Ready => l.view.delayed.Some? && l.view.delayed.value <= l.view.now
    case Create(rec) =>
      && l.view.rec.None? && rec.status == Pending && rec.retryCount == 0 && rec.sweeps == 0
      && l.crew == map[] && l.subs == map[]
      && l.view.queued + l.view.processing + l.view.dead == 0 && l.view.delayed.None? && !l.view.marked
    case Admit(sid, _) => sid !in l.subs && l.view.rec.Some? && l.view.rec.value.status == Pending
    case Submit(sid, _) => sid in l.subs
    case Abort(sid) => sid in l.subs
    case Sweep(_) => l.view.rec.Some?
    case Pass(_, next) => next >= l.next
  }

  function LWork(c: Config, l: Lone, wid: nat, o: Outcome): Lone
    requires LEnabled(c, l, Work(wid, o))
  {
    var w := l.crew[wid];
    l.(view := VStep(c, l.view, w, o),
       crew := Manned(l.crew, wid, Next(c, Later(l.view, o.elapsed), w, o)),
       hist := NoteWork(l.hist, l.view, w, o))
  }

  function LTake(l: Lone, wid: nat, ok: bool): Lone {
    l.(view := VTake(l.view),
       crew := if ok then l.crew[wid := Start(l.id, l.next, Refresh)] else l.crew,
       next := l.next + 1)
  }

  function LSubmit(l: Lone, sid: nat, f: Fault): Lone
    requires sid in l.subs
  {
    match l.subs[sid]
    case ToPush =>
      var l1 := if Applied(f)
                then l.(view := l.view.(queued := l.view.queued + 1),
                        hist := l.hist.(pushes := l.hist.pushes + 1, lost := true)) else l;
      l1.(subs := l.subs[sid := if f.Fine? then ToMark else ToFail])
    case ToMark =>
      var l1 := if Applied(f) then l.(view := l.view.(marked := true), hist := l.hist.(lost := false)) else l;
      l1.(subs := if f.Fine? then l.subs - {sid} else l.subs[sid := ToFail])
    case ToFail =>
      var l1 := if Applied(f) && l.view.rec.Some?
                then l.(view := VWrite(l.view, None, Failed, false),
                        hist := l.hist.(byWorker := l.hist.byWorker && l.view.rec.value.status == Failed)) else l;
      l1.(subs := l.subs - {sid})
  }

  function LSweep(c: Config, l: Lone, o: Swept): Lone
    requires l.view.rec.Some?
  {
    var v := VSweep(c, l.view, o);
    var pushed := Sweeps(c, l.view, o);
    l.(view := v,
       hist := l.hist.(pushes := if pushed then l.hist.pushes + 1 else l.hist.pushes,
                       lost := if pushed then !v.marked else l.hist.lost,
                       byWorker := l.hist.byWorker && (SweptOut(c, l.view, o) ==> l.view.rec.value.status == Failed)))
  }

  function LStep(c: Config, l: Lone, a: Act): Lone
    requires LEnabled(c, l, a)
  {
    match a
    case Work(wid, o) => LWork(c, l, wid, o)
    case Take(wid, ok) => LTake(l, wid, ok)
    case Crash(wid) => l.(crew := l.crew - {wid})
    case Reap => l.(view := VReap(l.view))
    case Ready => l.(view := l.view.(delayed := None, queued := l.view.queued + 1))
    case Create(rec) => l.(view := l.view.(rec := Some(rec)))
    case Admit(sid, f) =>
      l.(view := if Applied(f) then VWrite(l.view, None, Queued, false) else l.view,
         subs := if f.Fine? then l.subs[sid := ToPush] else l.subs)
    case Submit(sid, f) => LSubmit(l, sid, f)
    case Abort(sid) => l.(subs := l.subs - {sid})
    case Sweep(o) => LSweep(c, l, o)
    case Pass(elapsed, next) => l.(view := Later(l.view, elapsed), next := next)
  }
}
