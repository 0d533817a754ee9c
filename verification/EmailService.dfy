/** `EmailService` on the table of records, and the audit trail it keeps. */
module EmailServices {
  import opened Base
  import opened Records
  import Payload
  import I = Idempotency

  /** The result of a database call, or the exception it raised. */
  datatype DbReply<+T> = Row(value: T) | OperationalError | OtherException

  function Given<T>(f: Fault, value: T): DbReply<T> {
    match f
    case Fine => Row(value)
    case Fails(_, generic) => if generic then OtherException else OperationalError
  }

  /** `create_email` ends without a commit. */
  predicate Decided(t: I.Rules, db: Table, r: Payload.Request, first: Fault) {
    || !I.MailFromAllowed(t, Payload.EnvelopeOf(r))
    || (I.HasKey(r) && (first.Fails? || !I.Lookup(db, r).NoRow?))
    || !I.HeadersAllowed(t, r)
  }

  /** A call answers like the atomic get-or-create, at its lookup if that already decides it and else at its
      commit. */
  lemma ServeIsAtomic(t: I.Rules, db: Table, r: Payload.Request, uuid: Id,
                      first: Fault, meanwhile: Table, commit: Fault, second: Fault)
    requires I.Unique(db) && I.Unique(meanwhile) && I.Grown(db, meanwhile) && uuid !in meanwhile
    ensures var served := I.Serve(t, db, r, uuid, first, meanwhile, commit, second);
            && (Decided(t, db, r, first) ==>
                  && served.db == db
                  && served.result == (if I.MailFromAllowed(t, Payload.EnvelopeOf(r)) && I.HasKey(r) && first.Fails?
                                       then I.DbFailed else I.GetOrCreate(t, db, r, uuid).result))
            && (!Decided(t, db, r, first) ==>
                  && (commit.Fine? && second.Fine? ==> served == I.GetOrCreate(t, meanwhile, r, uuid))
                  && (served.db == meanwhile || served.db == I.GetOrCreate(t, meanwhile, r, uuid).db)
                  && (commit.Fails? ==> served.result == I.DbFailed))
  {
    hide Payload.PayloadMatches, I.MailFromAllowed, I.HeadersAllowed;
    I.OneMatch(db, r);
    I.OneMatch(meanwhile, r);
  }

  class EmailService {
    var rows: Table

    method GetById(id: Id, f: Fault) returns (r: DbReply<Option<Record>>)
      ensures r == Given(f, if id in rows then Some(rows[id]) else None)
    {
      r := Given(f, if id in rows then Some(rows[id]) else None);
    }

    /** `create_email`. `meanwhile` is the table as other sessions have left it by the time of the commit.
        The call answers like the atomic get-or-create, at its lookup if that already decides it, and
        else at its commit; a failing commit has had its whole effect or none. */
    method CreateEmail(t: I.Rules, r: Payload.Request, uuid: Id,
                       first: Fault, meanwhile: Table, commit: Fault, second: Fault)
      returns (result: I.Result)
      requires I.Unique(rows) && I.Unique(meanwhile) && I.Grown(rows, meanwhile) && uuid !in meanwhile
      modifies this
      ensures I.Outcome(rows, result) == I.Serve(t, old(rows), r, uuid, first, meanwhile, commit, second)
      ensures var sender := if r.envelopeFrom.Some? && r.envelopeFrom.value != "" then r.envelopeFrom.value
                            else r.from_;
              result == I.InvalidMailFrom
              <==> forall i :: 0 <= i < |t.mailFrom| ==>
                     t.text.lower(t.text.strip(t.mailFrom[i])) != t.text.lower(t.text.strip(sender))
      ensures result == I.HeadersNotAllowed
              <==> && result != I.InvalidMailFrom && !I.AnswersAtLookup(old(rows), r, first) && r.headers.Some?
                   && exists i :: 0 <= i < |r.headers.value| && I.Unlisted(t, r.headers.value[i].0)
      ensures result == I.Returned(uuid) ==> uuid in rows && I.HoldsRequest(rows[uuid], r)
      ensures Decided(t, old(rows), r, first) ==> rows == old(rows)
      ensures Decided(t, old(rows), r, first) ==>
                result == if I.MailFromAllowed(t, Payload.EnvelopeOf(r)) && I.HasKey(r) && first.Fails? then I.DbFailed
                          else I.GetOrCreate(t, old(rows), r, uuid).result
      ensures !Decided(t, old(rows), r, first) && commit.Fine? && second.Fine? ==>
                I.Outcome(rows, result) == I.GetOrCreate(t, meanwhile, r, uuid)
      ensures !Decided(t, old(rows), r, first) ==> rows == meanwhile || rows == I.GetOrCreate(t, meanwhile, r, uuid).db
      ensures !Decided(t, old(rows), r, first) && commit.Fails? ==> result == I.DbFailed
      ensures result.Returned? ==>
                && I.Keeps(rows, t, result.id, r)
                && (|| rows == old(rows) || rows == meanwhile
                    || (result.id == uuid && rows == meanwhile[uuid := Fresh(r)]))
    {
      ServeIsAtomic(t, rows, r, uuid, first, meanwhile, commit, second);
      I.ServeKeeps(t, rows, r, uuid, first, meanwhile, commit, second);
      I.ServeReturns(t, rows, r, uuid, first, meanwhile, commit, second);
      I.FreshHolds(r);
      I.ServeRefusesSenders(t, rows, r, uuid, first, meanwhile, commit, second);
      I.ServeRefusesHeaders(t, rows, r, uuid, first, meanwhile, commit, second);
      hide I.Serve, I.GetOrCreate, I.Keeps, I.HoldsRequest, I.AnswersAtLookup, I.Unlisted, Decided, Fresh;
      hide I.MailFromAllowed, I.Grown, I.Unique;
      result := FindOrInsert(t, r, uuid, first, meanwhile, commit, second);
    }

    /** The body of `create_email`: the moves of `Idempotency.Serve`. */
    method FindOrInsert(t: I.Rules, r: Payload.Request, uuid: Id,
                        first: Fault, meanwhile: Table, commit: Fault, second: Fault)
      returns (result: I.Result)
      requires I.Unique(rows) && I.Unique(meanwhile) && I.Grown(rows, meanwhile) && uuid !in meanwhile
      modifies this
      ensures I.Outcome(rows, result) == I.Serve(t, old(rows), r, uuid, first, meanwhile, commit, second)
    {
      hide Payload.PayloadMatches, I.MailFromAllowed, I.HeadersAllowed;
      I.OneMatch(rows, r);
      I.OneMatch(meanwhile, r);
      if !I.MailFromAllowed(t, Payload.EnvelopeOf(r)) { return I.InvalidMailFrom; }
      if I.HasKey(r) {
        if first.Fails? { return I.DbFailed; }
        match I.Lookup(rows, r) {
          case OneRow(id) =>
            assert id in I.Matching(rows, r);
            return I.Replay(t, rows[id], id, r);
          case Several => return I.DbFailed;
          case NoRow =>
        }
      }
      if !I.HeadersAllowed(t, r) { return I.HeadersNotAllowed; }
      rows := meanwhile;
      if commit.Fine? && I.Matching(rows, r) != {} {
        if I.HasKey(r) {
          if second.Fails? { return I.DbFailed; }
          match I.Lookup(rows, r) {
            case OneRow(id) =>
              assert id in I.Matching(rows, r);
              return I.Replay(t, rows[id], id, r);
            case Several => return I.DbFailed;
            case NoRow =>
          }
        }
        return I.IntegrityError;
      }
      if Applied(commit) && I.Matching(rows, r) == {} { rows := rows[uuid := Fresh(r)]; }
      result := if commit.Fails? then I.DbFailed else I.Returned(uuid);
    }

    /** The conditional `UPDATE`; true when a row changed. */
    method TransitionToSending(id: Id, f: Fault) returns (r: DbReply<bool>)
      modifies this
      ensures rows == if Applied(f) then Transition(old(rows), id) else old(rows)
      ensures r == Given(f, Hits(old(rows), id))
      ensures var hit := id in old(rows) && (var s := old(rows)[id].status; s == Pending || s == Queued || s == Failed);
              && (f.Fine? ==> r == Row(hit))
              && rows == (if hit && Applied(f) then old(rows)[id := old(rows)[id].(status := Sending)] else old(rows))
    {
      var hit := id in rows && Eligible(rows[id].status);
      if Applied(f) && hit { rows := rows[id := rows[id].(status := Sending)]; }
      r := Given(f, hit);
    }

    /** `cached` is the record the session loaded before, if it answers with that one. */
    method UpdateStatus(id: Id, cached: Option<Record>, status: Status, increment: bool, f: Fault)
      returns (r: DbReply<Record>)
      modifies this
      ensures rows == if Applied(f) then Update(old(rows), id, cached, status, increment) else old(rows)
      ensures id in old(rows) && Applied(f) ==>
                var was, base := old(rows)[id], if cached.Some? then cached.value else old(rows)[id];
                var count := if increment then base.retryCount + 1 else base.retryCount;
                && rows.Keys == old(rows).Keys && (forall x :: x in rows && x != id ==> rows[x] == old(rows)[x])
                && rows[id].status == status && rows[id].retryCount == (if increment then count else was.retryCount)
                && rows[id].audit == base.audit + [Entry(status, Some(count))] && rows[id].sweeps == was.sweeps
                && rows[id].caller == was.caller && rows[id].key == was.key && rows[id].payload == was.payload
      ensures id !in old(rows) || !Applied(f) ==> rows == old(rows)
      ensures f.Fails? ==> r == if f.generic then OtherException else OperationalError
      ensures f.Fine? ==> r == if id in rows then Row(rows[id]) else OtherException
    {
      if id in rows {
        var email := if cached.Some? then cached.value else rows[id];
        var retries := email.retryCount;
        if increment { retries := retries + 1; }
        var audit := email.audit + [Entry(status, Some(retries))];
        if Applied(f) {
          var row := rows[id].(status := status, audit := audit);
          if increment { row := row.(retryCount := retries); }
          rows := rows[id := row];
        }
      }
      r := if f.Fails? then (if f.generic then OtherException else OperationalError)
           else if id in rows then Row(rows[id]) else OtherException;
    }
  }

  // ----- audit trail -----

  /** Changes to one record, one after the other; `Set` is the sweeper's direct write. */
  datatype Change = Write(status: Status, increment: bool) | Cas | Set(status: Status, sweeps: nat)

  function Changed(rec: Record, ch: Change): Record {
    match ch
    case Write(status, increment) => Updated(rec, rec, status, increment)
    case Cas => if Eligible(rec.status) then rec.(status := Sending) else rec
    case Set(status, sweeps) => rec.(status := status, sweeps := sweeps)
  }

  function ChangedAll(rec: Record, changes: seq<Change>): Record {
    if changes == [] then rec else Changed(ChangedAll(rec, changes[..|changes| - 1]), changes[|changes| - 1])
  }

  function Writes(changes: seq<Change>): nat {
    if changes == [] then 0
    else Writes(changes[..|changes| - 1]) + (if changes[|changes| - 1].Write? then 1 else 0)
  }

  function Recorded(e: Entry): nat { if e.retryCount.Some? then e.retryCount.value else 0 }

  ghost predicate Trail(rec: Record) {
    && rec.audit != []
    && (forall i, j :: 0 <= i < j < |rec.audit| ==> Recorded(rec.audit[i]) <= Recorded(rec.audit[j]))
    && Recorded(rec.audit[|rec.audit| - 1]) == rec.retryCount
  }

  lemma FreshHasTrail(r: Payload.Request)
    ensures Trail(Fresh(r)) && |Fresh(r).audit| == 1
  {
  }

  lemma ChangeKeepsTrail(rec: Record, ch: Change)
    requires Trail(rec)
    ensures Trail(Changed(rec, ch)) && rec.audit <= Changed(rec, ch).audit
    ensures |Changed(rec, ch).audit| == |rec.audit| + (if ch.Write? then 1 else 0)
  {
  }

  /** Over any serialised run the log only grows, by one entry per `update_status`, and the retry
      counts in it never fall and end at the record's own. */
  lemma {:induction false} AuditTrail(r: Payload.Request, changes: seq<Change>, n: nat)
    requires n <= |changes|
    ensures var rec := ChangedAll(Fresh(r), changes);
            && Trail(rec)
            && |rec.audit| == 1 + Writes(changes)
            && ChangedAll(Fresh(r), changes[..n]).audit <= rec.audit
  {
    FreshHasTrail(r);
    var last := |changes| - 1;
    if changes == [] {
      assert changes[..n] == changes;
    } else if n == |changes| {
      assert changes[..n] == changes;
      AuditTrail(r, changes[..last], last);
      ChangeKeepsTrail(ChangedAll(Fresh(r), changes[..last]), changes[last]);
    } else {
      AuditTrail(r, changes[..last], n);
      assert changes[..last][..n] == changes[..n];
      ChangeKeepsTrail(ChangedAll(Fresh(r), changes[..last]), changes[last]);
    }
  }

  /** Serialisation is what it takes: an update computed from an earlier copy of the row keeps the log
      exactly when that copy has the current log. */
  lemma StaleUpdateKeepsLogIff(base: Record, current: Record, status: Status, increment: bool)
    ensures var rec := Updated(base, current, status, increment);
            current.audit <= rec.audit && |rec.audit| == |current.audit| + 1 <==> base.audit == current.audit
  {
    var rec := Updated(base, current, status, increment);
    if current.audit <= rec.audit && |rec.audit| == |current.audit| + 1 {
      assert base.audit == rec.audit[..|rec.audit| - 1];
      assert current.audit == rec.audit[..|current.audit|];
    }
  }
}
