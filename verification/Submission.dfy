/** `send_email` of the API: create or find the record, and enqueue it once. */
module Submissions {
  import opened Base
  import opened Lists
  import opened Records
  import opened Queue
  import opened Process
  import opened OneEmail
  import I = Idempotency
  import P = Pipeline
  import Payload
  import QS = QueueServices
  import ES = EmailServices

  /** 202, 200, or an HTTP error. */
  datatype Response = Admitted(id: Id) | Existing(id: Id, status: Status) | HttpError(code: int)

  /** How the calls of one submission end; `meanwhile` is the table that other sessions have left when
      `create_email` commits. */
  datatype Calls = Calls(
    find: Fault, commit: Fault, findAgain: Fault, admit: Fault, push: Fault, mark: Fault, fail: Fault)

  /** The exception handlers around the whole call. */
  function ErrorFor(result: I.Result): Response {
    match result
    case Returned(id) => Admitted(id)
    case InvalidMailFrom => HttpError(400)
    case HeadersNotAllowed => HttpError(400)
    case Mismatch => HttpError(409)
    case _ => HttpError(500)
  }

  function Stored(f: Fault, before: Table, after: Table): Table { if Applied(f) then after else before }

  /** Enqueueing went through. */
  predicate Enqueues(o: Calls) { o.admit.Fine? && o.push.Fine? && o.mark.Fine? }

  /** The queue keys and the table after a submission that saw PENDING. */
  function KeysAfter(k: Keys, id: Id, o: Calls): Keys {
    if o.admit.Fine? then QS.Enqueued(k, id, o.push, o.mark) else k
  }

  function RowsAfter(db: Table, id: Id, o: Calls): Table {
    var admitted := Stored(o.admit, db, Update(db, id, None, Queued, false));
    if o.admit.Fine? && !Enqueues(o) then Stored(o.fail, admitted, Update(admitted, id, None, Failed, false))
    else admitted
  }

  // ----- as steps of the pipeline -----

  /** The submission's steps, with nothing in between. */
  function Drive(c: Config, s: P.State, sid: nat, id: Id, o: Calls): P.State
    requires P.Enabled(c, s, P.Step.Admit(sid, id, o.admit))
  {
    var s1 := P.Apply(c, s, P.Step.Admit(sid, id, o.admit));
    if o.admit.Fails? then s1 else
    var s2 := P.Apply(c, s1, P.Step.Submit(sid, o.push));
    if o.push.Fails? then P.Apply(c, s2, P.Step.Submit(sid, o.fail)) else
    var s3 := P.Apply(c, s2, P.Step.Submit(sid, o.mark));
    if o.mark.Fails? then P.Apply(c, s3, P.Step.Submit(sid, o.fail)) else s3
  }

  lemma AdmitStep(c: Config, s: P.State, sid: nat, id: Id, f: Fault)
    requires P.Enabled(c, s, P.Step.Admit(sid, id, f))
    ensures P.Apply(c, s, P.Step.Admit(sid, id, f))
            == s.(env := s.env.(db := Stored(f, s.env.db, Update(s.env.db, id, None, Queued, false))),
                  subs := if f.Fine? then s.subs[sid := P.Submission(id, ToPush)] else s.subs)
    ensures P.HistOf(P.Apply(c, s, P.Step.Admit(sid, id, f)), id) == P.HistOf(s, id)
  {
    hide Update;
  }

  lemma SubmitStep(c: Config, s: P.State, sid: nat, f: Fault)
    requires sid in s.subs
    ensures var s', b := P.Apply(c, s, P.Step.Submit(sid, f)), s.subs[sid];
            && s'.env == (if Applied(f) then P.SubmitEffect(s.env, b) else s.env)
            && s'.subs == P.SubmitNext(s.subs, sid, f)
            && P.HistOf(s', b.id).pushes == P.HistOf(s, b.id).pushes + (if b.next.ToPush? && Applied(f) then 1 else 0)
  {
    hide Update, P.SubmitEffect, P.SubmitNext;
  }

  /** `Submit` below does what these steps do. */
  lemma DriveIsSubmit(c: Config, s: P.State, sid: nat, id: Id, o: Calls)
    requires P.Enabled(c, s, P.Step.Admit(sid, id, o.admit))
    ensures var s' := Drive(c, s, sid, id, o);
            && s'.env == s.env.(keys := KeysAfter(s.env.keys, id, o), db := RowsAfter(s.env.db, id, o))
            && s'.subs == s.subs
            && P.HistOf(s', id).pushes == P.HistOf(s, id).pushes + (if o.admit.Fine? && Applied(o.push) then 1 else 0)
  {
    hide Update, P.Apply, P.HistOf;
    AdmitStep(c, s, sid, id, o.admit);
    if o.admit.Fine? {
      var s1 := P.Apply(c, s, P.Step.Admit(sid, id, o.admit));
      var s2 := P.Apply(c, s1, P.Step.Submit(sid, o.push));
      SubmitStep(c, s1, sid, o.push);
      if o.push.Fails? {
        SubmitStep(c, s2, sid, o.fail);
      } else {
        SubmitStep(c, s2, sid, o.mark);
        if o.mark.Fails? { SubmitStep(c, P.Apply(c, s2, P.Step.Submit(sid, o.mark)), sid, o.fail); }
      }
    }
  }

  class EmailApi {
    const queue: QS.QueueService
    const emails: ES.EmailService

    constructor (queue: QS.QueueService, emails: ES.EmailService)
      ensures this.queue == queue && this.emails == emails
    {
      this.queue, this.emails := queue, emails;
    }

    /** From the PENDING guard on. A record that is not PENDING any more is left alone, in both stores. */
    method Submit(id: Id, o: Calls) returns (r: Response)
      requires id in emails.rows
      modifies queue, emails
      ensures old(emails.rows)[id].status != Pending ==>
                && emails.rows == old(emails.rows) && queue.View() == old(queue.View())
                && r == Existing(id, old(emails.rows)[id].status)
      ensures old(emails.rows)[id].status == Pending ==>
                && queue.View() == KeysAfter(old(queue.View()), id, o)
                && emails.rows == RowsAfter(old(emails.rows), id, o)
                && r == (if Enqueues(o) then Admitted(id) else HttpError(500))
      ensures old(emails.rows)[id].status == Pending && o.admit.Fine? ==>
                && id in emails.rows
                && (Enqueues(o) ==> emails.rows[id].status == Queued)
                && (!Enqueues(o) && o.fail.Fine? ==> emails.rows[id].status == Failed)
                && (!Enqueues(o) && !Applied(o.fail) ==> emails.rows[id].status == Queued)
                && DequeueOrder(queue.queue) == DequeueOrder(old(queue.queue)) + (if Applied(o.push) then [id] else [])
    {
      var record := emails.rows[id];
      if record.status != Pending {
        return Existing(id, record.status);
      }
      var updated := emails.UpdateStatus(id, None, Queued, false, o.admit);
      if !updated.Row? { return HttpError(500); }
      var enqueued := queue.Enqueue(id, o.push, o.mark);
      if !enqueued {
        var failed := emails.UpdateStatus(id, None, Failed, false, o.fail);
        return HttpError(500);
      }
      r := Admitted(id);
    }

    /** The whole call. */
    method SendEmail(t: I.Rules, authenticated: string, request: Payload.Request, uuid: Id, meanwhile: Table, o: Calls)
      returns (r: Response)
      requires I.Unique(emails.rows) && I.Unique(meanwhile) && I.Grown(emails.rows, meanwhile) && uuid !in meanwhile
      modifies queue, emails
      ensures var served := I.Serve(t, old(emails.rows), request, uuid, o.find, meanwhile, o.commit, o.findAgain);
              request.caller == authenticated ==>
                if !served.result.Returned? then
                  emails.rows == served.db && queue.View() == old(queue.View()) && r == ErrorFor(served.result)
                else
                  var id := served.result.id;
                  id in served.db &&
                  if served.db[id].status == Pending then
                    && emails.rows == RowsAfter(served.db, id, o) && queue.View() == KeysAfter(old(queue.View()), id, o)
                    && r == (if Enqueues(o) then Admitted(id) else HttpError(500))
                  else
                    && emails.rows == served.db && queue.View() == old(queue.View())
                    && r == Existing(id, served.db[id].status)
      ensures var served := I.Serve(t, old(emails.rows), request, uuid, o.find, meanwhile, o.commit, o.findAgain);
              var result := served.result;
              request.caller == authenticated ==>
                && (result.InvalidMailFrom? || result.HeadersNotAllowed? ==> r == HttpError(400))
                && (result.Mismatch? ==> r == HttpError(409))
                && (result.Corruption? || result.IntegrityError? || result.DbFailed? ==> r == HttpError(500))
      ensures request.caller != authenticated ==>
                r == HttpError(403) && emails.rows == old(emails.rows) && queue.View() == old(queue.View())
      ensures r.Existing? ==>
                queue.View() == old(queue.View()) && (emails.rows == old(emails.rows) || emails.rows == meanwhile)
      ensures r.Admitted? ==>
                && queue.View() == QS.Enqueued(old(queue.View()), r.id, Fine, Fine)
                && r.id in emails.rows && emails.rows[r.id].status == Queued
      ensures r.Admitted? || r.Existing? ==> I.Keeps(emails.rows, t, r.id, request)
      ensures !r.Admitted? && !r.Existing? ==> r.HttpError?
    {
      hide Payload.PayloadMatches, I.MailFromAllowed, I.HeadersAllowed, I.GetOrCreate, I.Serve;
      if request.caller != authenticated { return HttpError(403); }
      var created := emails.CreateEmail(t, request, uuid, o.find, meanwhile, o.commit, o.findAgain);
      if !created.Returned? { return ErrorFor(created); }
      r := Submit(created.id, o);
    }
  }
}
