/** Email records and the two ways the service changes their status. */
module Records {
  import opened Base
  import Payload

  datatype Status = Pending | Queued | Sending | Sent | Failed | Dlq

  /** An audit entry; the entry written at creation carries no retry count. */
  datatype Entry = Entry(status: Status, retryCount: Option<nat>)

  datatype Record = Record(
    status: Status, retryCount: nat, sweeps: nat, audit: seq<Entry>,
    caller: string, key: Option<string>, payload: Payload.Stored)

  type Table = map<Id, Record>

  /** The record `create_email` inserts. */
  function Fresh(r: Payload.Request): Record {
    Record(Pending, 0, 0, [Entry(Pending, None)], r.caller, r.key, Payload.Store(r))
  }

  /** The statuses from which `transition_to_sending` may start a send. */
  predicate Eligible(s: Status) { s == Pending || s == Queued || s == Failed }

  /** Not yet picked up by any worker. */
  predicate Open(db: Table, id: Id) { id in db && (db[id].status == Pending || db[id].status == Queued) }

  /** The conditional `UPDATE` of `transition_to_sending`; it reports a row exactly when `Hits`. */
  predicate Hits(db: Table, id: Id) { id in db && Eligible(db[id].status) }

  function Transition(db: Table, id: Id): Table {
    if Hits(db, id) then db[id := db[id].(status := Sending)] else db
  }

  /** `update_status` on row `current`, computed from `base`: the session may answer the second
      `get_by_id` with the object it loaded earlier. Only changed columns are written. */
  function Updated(base: Record, current: Record, status: Status, increment: bool): Record {
    var retries := if increment then base.retryCount + 1 else base.retryCount;
    current.(status := status,
             retryCount := if increment then retries else current.retryCount,
             audit := base.audit + [Entry(status, Some(retries))])
  }

  function Update(db: Table, id: Id, base: Option<Record>, status: Status, increment: bool): Table {
    if id !in db then db
    else
      var b := if base.Some? then base.value else db[id];
      db[id := Updated(b, db[id], status, increment)]
  }
}
