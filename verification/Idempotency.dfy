/** `create_email` as get-or-create: concurrent calls over one table with a unique index on
    (caller_id, idempotency_key). */
module Idempotency {
  import opened Base
  import opened Records
  import opened Payload

  /** The settings that `create_email` reads. */
  datatype Rules = Rules(text: Text, mailFrom: seq<string>, headerNames: seq<string>)

  datatype Result =
    | Returned(id: Id)
    | InvalidMailFrom | HeadersNotAllowed
    | Mismatch | Corruption        // IdempotencyPayloadMismatchError and its subclass for stored payloads
    | IntegrityError               // from the unique index, passed on
    | DbFailed                     // any other database exception

  // ----- validation and lookup -----

  predicate MailFromAllowed(t: Rules, envelope: string) {
    exists i :: && 0 <= i < |t.mailFrom|
                && t.text.lower(t.text.strip(t.mailFrom[i])) == t.text.lower(t.text.strip(envelope))
  }

  predicate NameAllowed(t: Rules, name: string) {
    exists i :: 0 <= i < |t.headerNames| && t.text.lower(t.headerNames[i]) == t.text.lower(name)
  }

  predicate HeadersAllowed(t: Rules, r: Request) {
    r.headers.Some? ==> forall i :: 0 <= i < |r.headers.value| ==> NameAllowed(t, r.headers.value[i].0)
  }

  /** A truthy idempotency key. */
  predicate HasKey(r: Request) { r.key.Some? && r.key.value != "" }

  /** The rows that `get_by_idempotency_key` selects, which are also those a new row collides with. */
  function Matching(db: Table, r: Request): set<Id> {
    set id | id in db && db[id].caller == r.caller && r.key.Some? && db[id].key == r.key
  }

  predicate Allowed(t: Rules, r: Request) { MailFromAllowed(t, EnvelopeOf(r)) && HeadersAllowed(t, r) }

  /** What a call makes of the row it found. */
  function Replay(t: Rules, rec: Record, id: Id, r: Request): Result {
    match PayloadMatches(t.text, rec.payload, r)
    case Matches => Returned(id)
    case Differs => Mismatch
    case Corrupt => Corruption
  }

  /** `scalar_one_or_none`: no row, the one row, or `MultipleResultsFound`. */
  datatype Found = NoRow | OneRow(id: Id) | Several

  function Lookup(db: Table, r: Request): (f: Found)
    ensures f.OneRow? ==> Matching(db, r) == {f.id}
    ensures f.NoRow? <==> Matching(db, r) == {}
  {
    var ids := Matching(db, r);
    if ids == {} then NoRow
    else
      var id :| id in ids;
      if ids == {id} then OneRow(id) else Several
  }

  // ----- one call, cut at its database calls -----

  datatype Pc = Searching | Inserting | SearchingAgain | Finished(result: Result)

  datatype Caller = Caller(request: Request, pc: Pc)

  function ToInsert(t: Rules, r: Request): Pc {
    if HeadersAllowed(t, r) then Inserting else Finished(HeadersNotAllowed)
  }

  function Begin(t: Rules, r: Request): Pc {
    if !MailFromAllowed(t, EnvelopeOf(r)) then Finished(InvalidMailFrom)
    else if HasKey(r) then Searching else ToInsert(t, r)
  }

  function AfterLookup(t: Rules, db: Table, r: Request, absent: Pc): Pc {
    match Lookup(db, r)
    case NoRow => absent
    case OneRow(id) => Finished(Replay(t, db[id], id, r))
    case Several => Finished(DbFailed)
  }

  function Insert(db: Table, r: Request, uuid: Id): Table { db[uuid := Fresh(r)] }

  datatype Moved = Moved(db: Table, pc: Pc)

  /** The next database call. A commit that fails may have inserted the row; `refresh` follows it. */
  function Move(t: Rules, db: Table, k: Caller, uuid: Id, f: Fault): Moved {
    var r := k.request;
    match k.pc
    case Searching => Moved(db, if f.Fails? then Finished(DbFailed) else AfterLookup(t, db, r, ToInsert(t, r)))
    case Inserting =>
      if Matching(db, r) != {} then
        Moved(db, if f.Fails? then Finished(DbFailed)
                  else if HasKey(r) then SearchingAgain else Finished(IntegrityError))
      else
        Moved(if Applied(f) then Insert(db, r, uuid) else db, Finished(if f.Fails? then DbFailed else Returned(uuid)))
    case SearchingAgain =>
      Moved(db, if f.Fails? then Finished(DbFailed) else AfterLookup(t, db, r, Finished(IntegrityError)))
    case Finished(_) => Moved(db, k.pc)
  }

  // ----- the atomic operation it should look like -----

  datatype Outcome = Outcome(db: Table, result: Result)

  function Create(t: Rules, db: Table, r: Request, uuid: Id): Outcome {
    if !HeadersAllowed(t, r) then Outcome(db, HeadersNotAllowed)
    else if Matching(db, r) != {} then Outcome(db, IntegrityError)
    else Outcome(Insert(db, r, uuid), Returned(uuid))
  }

  function GetOrCreate(t: Rules, db: Table, r: Request, uuid: Id): Outcome {
    if !MailFromAllowed(t, EnvelopeOf(r)) then Outcome(db, InvalidMailFrom)
    else if HasKey(r) then
      match Lookup(db, r)
      case NoRow => Create(t, db, r, uuid)
      case OneRow(id) => Outcome(db, Replay(t, db[id], id, r))
      case Several => Outcome(db, DbFailed)
    else Create(t, db, r, uuid)
  }

  /** One whole call, with the outcomes of its database calls. It looks up in `db`; by the time of its commit
      the table is `meanwhile`. */
  function Serve(t: Rules, db: Table, r: Request, uuid: Id,
                 first: Fault, meanwhile: Table, commit: Fault, second: Fault): Outcome {
    match Begin(t, r)
    case Finished(result) => Outcome(db, result)
    case Searching =>
      var m := Move(t, db, Caller(r, Searching), uuid, first);
      if m.pc.Finished? then Outcome(db, m.pc.result) else ServeCommit(t, meanwhile, r, uuid, commit, second)
    case _ => ServeCommit(t, meanwhile, r, uuid, commit, second)
  }

  function ServeCommit(t: Rules, db: Table, r: Request, uuid: Id, commit: Fault, second: Fault): Outcome {
    var m := Move(t, db, Caller(r, Inserting), uuid, commit);
    if m.pc.Finished? then Outcome(m.db, m.pc.result)
    else
      var again := Move(t, m.db, Caller(r, SearchingAgain), uuid, second);
      if again.pc.Finished? then Outcome(again.db, again.pc.result) else Outcome(again.db, DbFailed)
  }

  // ----- any number of calls, interleaved with the rest of the system -----

  datatype State = State(db: Table, callers: map<nat, Caller>)

  /** `Other` is a step of the rest of the system: it may change rows, but not which request they hold. */
  datatype Step = Call(n: nat, r: Request) | Advance(n: nat, uuid: Id, f: Fault) | Other(db: Table)

  /** No row appears, disappears, or changes its caller, key or payload. */
  ghost predicate SameRequests(db: Table, db': Table) {
    && db.Keys == db'.Keys
    && forall id :: id in db ==>
         db'[id].caller == db[id].caller && db'[id].key == db[id].key && db'[id].payload == db[id].payload
  }

  ghost predicate Enabled(s: State, a: Step) {
    match a
    case Call(n, _) => n !in s.callers
    case Advance(n, uuid, _) => n in s.callers && !s.callers[n].pc.Finished? && uuid !in s.db
    case Other(db) => SameRequests(s.db, db)
  }

  function Apply(t: Rules, s: State, a: Step): State {
    match a
    case Call(n, r) => s.(callers := s.callers[n := Caller(r, Begin(t, r))])
    case Advance(n, uuid, f) =>
      if n in s.callers then
        var m := Move(t, s.db, s.callers[n], uuid, f);
        State(m.db, s.callers[n := s.callers[n].(pc := m.pc)])
      else s
    case Other(db) => s.(db := db)
  }

  // ----- invariants -----

  /** The unique index. */
  ghost predicate Unique(db: Table) {
    forall i, j ::
      i in db && j in db && db[i].key.Some? && db[i].caller == db[j].caller && db[i].key == db[j].key ==> i == j
  }

  predicate Keeps(db: Table, t: Rules, id: Id, r: Request) {
    && id in db && db[id].caller == r.caller && db[id].key == r.key
    && PayloadMatches(t.text, db[id].payload, r) == Matches
  }

  ghost predicate CallerFine(t: Rules, db: Table, k: Caller) {
    match k.pc
    case Searching => MailFromAllowed(t, EnvelopeOf(k.request)) && HasKey(k.request)
    case Inserting => Allowed(t, k.request)
    case SearchingAgain => Allowed(t, k.request) && HasKey(k.request) && Matching(db, k.request) != {}
    case Finished(Returned(id)) => Keeps(db, t, id, k.request)
    case Finished(_) => true
  }

  ghost predicate Inv(t: Rules, s: State) {
    && Unique(s.db)
    && forall n :: n in s.callers ==> CallerFine(t, s.db, s.callers[n])
  }

  lemma OneMatch(db: Table, r: Request)
    requires Unique(db)
    ensures !Lookup(db, r).Several?
    ensures forall id :: id in Matching(db, r) ==> Lookup(db, r) == OneRow(id)
  {
    forall i, j | i in Matching(db, r) && j in Matching(db, r) ensures i == j {
    }
    if id :| id in Matching(db, r) {
      assert Matching(db, r) == {id};
    }
  }

  /** Rows are only ever added, and keep the request they hold. */
  ghost predicate Grown(db: Table, db': Table) {
    forall id :: id in db ==>
      id in db' && db'[id].caller == db[id].caller && db'[id].key == db[id].key && db'[id].payload == db[id].payload
  }

  lemma CallerStaysFine(t: Rules, db: Table, db': Table, k: Caller)
    requires CallerFine(t, db, k) && Grown(db, db')
    ensures CallerFine(t, db', k)
  {
    if k.pc.SearchingAgain? {
      var id :| id in Matching(db, k.request);
      assert id in Matching(db', k.request);
    }
  }

  lemma UniqueAfterInsert(db: Table, r: Request, uuid: Id)
    requires Unique(db) && Matching(db, r) == {} && uuid !in db
    ensures Unique(Insert(db, r, uuid)) && Grown(db, Insert(db, r, uuid))
  {
    forall i | i in db && r.key.Some? ensures !(db[i].caller == r.caller && db[i].key == r.key) {
      assert i !in Matching(db, r);
    }
  }

  lemma FoundIsFine(t: Rules, db: Table, r: Request, absent: Pc)
    requires Unique(db) && (Matching(db, r) == {} ==> CallerFine(t, db, Caller(r, absent)))
    ensures CallerFine(t, db, Caller(r, AfterLookup(t, db, r, absent)))
  {
    match Lookup(db, r)
    case NoRow =>
    case Several =>
    case OneRow(id) => assert id in Matching(db, r);
  }

  /** One database call of a caller. */
  lemma MoveKeeps(t: Rules, db: Table, k: Caller, uuid: Id, f: Fault)
    requires Unique(db) && CallerFine(t, db, k) && uuid !in db
    ensures var m := Move(t, db, k, uuid, f);
            Unique(m.db) && Grown(db, m.db) && CallerFine(t, m.db, k.(pc := m.pc))
  {
    hide PayloadMatches, MailFromAllowed, HeadersAllowed;
    var r := k.request;
    match k.pc
    case Searching => FoundIsFine(t, db, r, ToInsert(t, r));
    case SearchingAgain => FoundIsFine(t, db, r, Finished(IntegrityError));
    case Inserting =>
      if Matching(db, r) == {} {
        UniqueAfterInsert(db, r, uuid);
        MatchIsEquivalence(t.text, r, r, r);
      }
    case Finished(_) =>
  }

  lemma Kept(t: Rules, s: State, a: Step)
    requires Inv(t, s) && Enabled(s, a)
    ensures Inv(t, Apply(t, s, a)) && Grown(s.db, Apply(t, s, a).db)
  {
    hide Move, CallerFine;
    var s' := Apply(t, s, a);
    match a
    case Call(n, r) => BeginIsFine(t, s.db, r);
    case Advance(n, uuid, f) =>
      MoveKeeps(t, s.db, s.callers[n], uuid, f);
      forall j | j in s.callers && j != n ensures CallerFine(t, s'.db, s.callers[j]) {
        CallerStaysFine(t, s.db, s'.db, s.callers[j]);
      }
    case Other(db) =>
      forall j | j in s.callers ensures CallerFine(t, db, s.callers[j]) {
        CallerStaysFine(t, s.db, db, s.callers[j]);
      }
  }

  lemma BeginIsFine(t: Rules, db: Table, r: Request)
    ensures CallerFine(t, db, Caller(r, Begin(t, r)))
  {
    hide MailFromAllowed, HeadersAllowed;
  }

  // ----- whole runs -----

  ghost predicate Run(t: Rules, states: seq<State>, steps: seq<Step>) {
    && |states| == |steps| + 1
    && states[0].callers == map[] && Unique(states[0].db)
    && forall i :: 0 <= i < |steps| ==> Enabled(states[i], steps[i]) && states[i + 1] == Apply(t, states[i], steps[i])
  }

  lemma {:induction false} InvHolds(t: Rules, states: seq<State>, steps: seq<Step>, n: nat)
    requires Run(t, states, steps) && n <= |steps|
    ensures Inv(t, states[n])
  {
    hide Enabled, Apply;
    if n > 0 {
      InvHolds(t, states, steps, n - 1);
      Kept(t, states[n - 1], steps[n - 1]);
    }
  }

  lemma {:induction false} DbGrows(t: Rules, states: seq<State>, steps: seq<Step>, m: nat, n: nat)
    requires Run(t, states, steps) && m <= n <= |steps|
    ensures Grown(states[m].db, states[n].db)
  {
    hide Enabled, Apply, Inv;
    if m < n {
      DbGrows(t, states, steps, m, n - 1);
      InvHolds(t, states, steps, n - 1);
      Kept(t, states[n - 1], steps[n - 1]);
    }
  }

  predicate Succeeded(s: State, n: nat, id: Id) { n in s.callers && s.callers[n].pc == Finished(Returned(id)) }

  /** At every moment there is at most one row per caller and key. */
  lemma OneRecordPerKey(t: Rules, states: seq<State>, steps: seq<Step>, n: nat)
    requires Run(t, states, steps) && n <= |steps|
    ensures Unique(states[n].db)
  {
    InvHolds(t, states, steps, n);
  }

  /** A call that succeeded did so with a row of its caller and key whose payload matches its request,
      and that stays so for the rest of the run. */
  lemma SuccessIsKept(t: Rules, states: seq<State>, steps: seq<Step>, m: nat, n: nat, k: nat, id: Id)
    requires Run(t, states, steps) && m <= n <= |steps| && Succeeded(states[m], k, id)
    ensures Keeps(states[n].db, t, id, states[m].callers[k].request)
  {
    InvHolds(t, states, steps, m);
    DbGrows(t, states, steps, m, n);
    assert CallerFine(t, states[m].db, states[m].callers[k]);
  }

  /** All calls that succeed with one caller id and one non-empty key return the same row, whenever they
      run; and if that row was stored for `origin`, they all asked for the same email as `origin`. */
  lemma SameRecord(t: Rules, states: seq<State>, steps: seq<Step>, m: nat, n: nat, j: nat, k: nat, i: Id, id: Id)
    requires Run(t, states, steps) && m <= n <= |steps| && Succeeded(states[m], j, i) && Succeeded(states[n], k, id)
    requires var a, b := states[m].callers[j].request, states[n].callers[k].request;
             HasKey(a) && a.caller == b.caller && a.key == b.key
    ensures i == id
    ensures id in states[n].db
    ensures forall origin :: states[n].db[id].payload == Store(origin) ==>
              && SameEmail(t.text, origin, states[m].callers[j].request)
              && SameEmail(t.text, origin, states[n].callers[k].request)
  {
    hide SameEmail, PayloadMatches;
    SuccessIsKept(t, states, steps, m, n, j, i);
    SuccessIsKept(t, states, steps, n, n, k, id);
    OneRecordPerKey(t, states, steps, n);
    forall origin | states[n].db[id].payload == Store(origin)
      ensures SameEmail(t.text, origin, states[m].callers[j].request)
      ensures SameEmail(t.text, origin, states[n].callers[k].request)
    {
      MatchIsSameEmail(t.text, origin, states[m].callers[j].request);
      MatchIsSameEmail(t.text, origin, states[n].callers[k].request);
    }
  }

  // ----- linearizability -----

  /** A call that ends, ends as if all of it had happened at this database call; before that it has left
      the table alone. */
  predicate Linear(t: Rules, db: Table, k: Caller, uuid: Id, m: Moved) {
    if m.pc.Finished? then GetOrCreate(t, db, k.request, uuid) == Outcome(m.db, m.pc.result) else m.db == db
  }

  lemma LookupIsLinear(t: Rules, db: Table, r: Request, uuid: Id)
    requires Unique(db) && MailFromAllowed(t, EnvelopeOf(r)) && HasKey(r)
    ensures Linear(t, db, Caller(r, Searching), uuid, Moved(db, AfterLookup(t, db, r, ToInsert(t, r))))
    ensures Matching(db, r) != {} ==>
              Linear(t, db, Caller(r, SearchingAgain), uuid, Moved(db, AfterLookup(t, db, r, Finished(IntegrityError))))
  {
    hide PayloadMatches, MailFromAllowed, HeadersAllowed;
    OneMatch(db, r);
  }

  lemma MoveIsLinear(t: Rules, db: Table, k: Caller, uuid: Id)
    requires Unique(db) && CallerFine(t, db, k) && !k.pc.Finished?
    ensures Linear(t, db, k, uuid, Move(t, db, k, uuid, Fine))
  {
    hide PayloadMatches, MailFromAllowed, HeadersAllowed;
    if !k.pc.Inserting? {
      LookupIsLinear(t, db, k.request, uuid);
    }
  }

  lemma BeginIsLinear(t: Rules, db: Table, r: Request, uuid: Id)
    ensures Begin(t, r).Finished? ==> GetOrCreate(t, db, r, uuid) == Outcome(db, Begin(t, r).result)
  {
    hide PayloadMatches, MailFromAllowed, HeadersAllowed;
  }

  /** Every run of concurrent calls is a run of atomic ones: a call takes effect at the step at which it
      ends, all its other steps leave the table alone, and its answer is the one of the atomic
      operation on the table of that moment. */
  lemma Linearizable(t: Rules, states: seq<State>, steps: seq<Step>, i: nat, uuid: Id)
    requires Run(t, states, steps) && i < |steps|
    ensures var a, s, s' := steps[i], states[i], states[i + 1];
            match a
            case Call(n, r) =>
              && s'.db == s.db
              && (s'.callers[n].pc.Finished? ==>
                    GetOrCreate(t, s.db, r, uuid) == Outcome(s.db, s'.callers[n].pc.result))
            case Advance(n, id, f) => f.Fine? ==> Linear(t, s.db, s.callers[n], id, Moved(s'.db, s'.callers[n].pc))
            case Other(_) => true
  {
    hide GetOrCreate, CallerFine, Linear;
    InvHolds(t, states, steps, i);
    match steps[i]
    case Call(n, r) => BeginIsLinear(t, states[i].db, r, uuid);
    case Advance(n, id, f) => MoveIsLinear(t, states[i].db, states[i].callers[n], id);
    case Other(_) =>
  }

  /** A call whose database call fails has had no effect or its whole effect. */
  lemma FailureIsAtomic(t: Rules, db: Table, k: Caller, uuid: Id, f: Fault)
    requires Unique(db) && CallerFine(t, db, k) && !k.pc.Finished? && f.Fails?
    ensures var m := Move(t, db, k, uuid, f);
            m.pc == Finished(DbFailed) && (m.db == db || m.db == GetOrCreate(t, db, k.request, uuid).db)
  {
    hide PayloadMatches, MailFromAllowed, HeadersAllowed;
  }

  // ----- replays -----

  /** A successful call repeated with the same request gives the same row exactly when its key is not
      empty: without a key there is a second row, and the empty key meets the unique index. */
  lemma ReplayIff(t: Rules, db: Table, r: Request, uuid: Id, again: Id)
    requires Unique(db) && uuid !in db && GetOrCreate(t, db, r, uuid).result.Returned?
    requires var db' := GetOrCreate(t, db, r, uuid).db; again !in db'
    ensures var o := GetOrCreate(t, db, r, uuid);
            && (GetOrCreate(t, o.db, r, again) == o <==> r.key.Some? && r.key.value != "")
            && (r.key == None ==> GetOrCreate(t, o.db, r, again).result == Returned(again))
            && (r.key == Some("") ==> GetOrCreate(t, o.db, r, again) == Outcome(o.db, IntegrityError))
  {
    hide PayloadMatches, MailFromAllowed, HeadersAllowed;
    var o := GetOrCreate(t, db, r, uuid);
    OneMatch(db, r);
    if o.db != db {
      UniqueAfterInsert(db, r, uuid);
      MatchIsEquivalence(t.text, r, r, r);
    }
    OneMatch(o.db, r);
    if r.key.Some? && o.db != db { assert uuid in Matching(o.db, r); }
  }

  // ----- the policies -----

  /** A call is refused for its sender if and only if no entry of the list is the envelope sender, both stripped
      and lowercased. */
  lemma RefusedSenders(t: Rules, db: Table, r: Request, uuid: Id)
    ensures var sender := if r.envelopeFrom.Some? && r.envelopeFrom.value != "" then r.envelopeFrom.value else r.from_;
            GetOrCreate(t, db, r, uuid).result == InvalidMailFrom
            <==> forall i :: 0 <= i < |t.mailFrom| ==>
                   t.text.lower(t.text.strip(t.mailFrom[i])) != t.text.lower(t.text.strip(sender))
  {
    hide HeadersAllowed, PayloadMatches;
  }

  /** The header name differs from every listed one, both lowercased. */
  predicate Unlisted(t: Rules, name: string) {
    forall j :: 0 <= j < |t.headerNames| ==> t.text.lower(t.headerNames[j]) != t.text.lower(name)
  }

  lemma UnlistedIsNotAllowed(t: Rules, name: string)
    ensures NameAllowed(t, name) <==> !Unlisted(t, name)
  {
  }

  lemma SomeUnlisted(t: Rules, r: Request)
    ensures HeadersAllowed(t, r)
            <==> !(r.headers.Some? && exists i :: 0 <= i < |r.headers.value| && Unlisted(t, r.headers.value[i].0))
  {
    hide NameAllowed, Unlisted;
    if r.headers.Some? {
      forall i | 0 <= i < |r.headers.value|
        ensures NameAllowed(t, r.headers.value[i].0) <==> !Unlisted(t, r.headers.value[i].0)
      {
        UnlistedIsNotAllowed(t, r.headers.value[i].0);
      }
    }
  }

  /** A call that finds no record is refused for its headers if and only if its sender is not refused and one of
      its header names is unlisted. */
  lemma RefusedHeaders(t: Rules, db: Table, r: Request, uuid: Id)
    requires r.key == None || r.key == Some("") || Matching(db, r) == {}
    ensures GetOrCreate(t, db, r, uuid).result == HeadersNotAllowed
            <==> && GetOrCreate(t, db, r, uuid).result != InvalidMailFrom
                 && r.headers.Some?
                 && exists i :: 0 <= i < |r.headers.value| && Unlisted(t, r.headers.value[i].0)
  {
    SomeUnlisted(t, r);
    hide MailFromAllowed, HeadersAllowed, PayloadMatches, NameAllowed, Unlisted;
  }

  /** The same for a whole call, whatever becomes of its database calls. */
  lemma ServeRefusesSenders(t: Rules, db: Table, r: Request, uuid: Id,
                            first: Fault, meanwhile: Table, commit: Fault, second: Fault)
    ensures var sender := if r.envelopeFrom.Some? && r.envelopeFrom.value != "" then r.envelopeFrom.value else r.from_;
            Serve(t, db, r, uuid, first, meanwhile, commit, second).result == InvalidMailFrom
            <==> forall i :: 0 <= i < |t.mailFrom| ==>
                   t.text.lower(t.text.strip(t.mailFrom[i])) != t.text.lower(t.text.strip(sender))
  {
    RefusedSenders(t, db, r, uuid);
    hide MailFromAllowed, HeadersAllowed, PayloadMatches;
  }

  /** A call with a non-empty key whose lookup fails or finds a row answers there. */
  predicate AnswersAtLookup(db: Table, r: Request, first: Fault) {
    && r.key.Some? && r.key.value != ""
    && (first.Fails? || exists id :: id in db && db[id].caller == r.caller && db[id].key == r.key)
  }

  lemma ServeRefusesHeaders(t: Rules, db: Table, r: Request, uuid: Id,
                            first: Fault, meanwhile: Table, commit: Fault, second: Fault)
    requires Unique(db)
    ensures var result := Serve(t, db, r, uuid, first, meanwhile, commit, second).result;
            result == HeadersNotAllowed
            <==> && result != InvalidMailFrom && !AnswersAtLookup(db, r, first) && r.headers.Some?
                 && exists i :: 0 <= i < |r.headers.value| && Unlisted(t, r.headers.value[i].0)
  {
    SomeUnlisted(t, r);
    OneMatch(db, r);
    LookupAnswers(db, r, first);
    hide MailFromAllowed, HeadersAllowed, PayloadMatches, NameAllowed, Unlisted, AnswersAtLookup;
  }

  lemma LookupAnswers(db: Table, r: Request, first: Fault)
    ensures AnswersAtLookup(db, r, first) <==> HasKey(r) && (first.Fails? || Matching(db, r) != {})
  {
    if id :| id in Matching(db, r) { }
    if HasKey(r) {
      if id :| id in db && db[id].caller == r.caller && db[id].key == r.key { assert id in Matching(db, r); }
    }
  }

  lemma ServeCommitKeeps(t: Rules, db: Table, r: Request, uuid: Id, commit: Fault, second: Fault)
    requires Unique(db) && CallerFine(t, db, Caller(r, Inserting)) && uuid !in db
    ensures var served := ServeCommit(t, db, r, uuid, commit, second);
            served.result.Returned? ==> Keeps(served.db, t, served.result.id, r)
  {
    hide PayloadMatches, MailFromAllowed, HeadersAllowed, Keeps, Matching;
    MoveKeeps(t, db, Caller(r, Inserting), uuid, commit);
    var m := Move(t, db, Caller(r, Inserting), uuid, commit);
    if m.pc.SearchingAgain? { MoveKeeps(t, m.db, Caller(r, SearchingAgain), uuid, second); }
  }

  /** A record that a call returns carries its request. */
  lemma ServeKeeps(t: Rules, db: Table, r: Request, uuid: Id,
                   first: Fault, meanwhile: Table, commit: Fault, second: Fault)
    requires Unique(db) && Unique(meanwhile) && Grown(db, meanwhile) && uuid !in meanwhile
    ensures var served := Serve(t, db, r, uuid, first, meanwhile, commit, second);
            served.result.Returned? ==> Keeps(served.db, t, served.result.id, r)
  {
    hide PayloadMatches, MailFromAllowed, HeadersAllowed, Keeps, Matching, ServeCommit;
    assert uuid !in db;
    BeginIsFine(t, db, r);
    if Begin(t, r).Searching? {
      MoveKeeps(t, db, Caller(r, Searching), uuid, first);
    }
    if CallerFine(t, db, Caller(r, Inserting)) {
      CallerStaysFine(t, db, meanwhile, Caller(r, Inserting));
      ServeCommitKeeps(t, meanwhile, r, uuid, commit, second);
    }
  }

  /** Where the row comes from that a call returns. */
  lemma ServeReturns(t: Rules, db: Table, r: Request, uuid: Id,
                     first: Fault, meanwhile: Table, commit: Fault, second: Fault)
    requires uuid !in meanwhile && Grown(db, meanwhile)
    ensures var served := Serve(t, db, r, uuid, first, meanwhile, commit, second);
            served.result.Returned? ==>
              || served.db == db || served.db == meanwhile
              || (served.result.id == uuid && served.db == meanwhile[uuid := Fresh(r)])
    ensures var served := Serve(t, db, r, uuid, first, meanwhile, commit, second);
            served.result == Returned(uuid) ==> served.db == meanwhile[uuid := Fresh(r)]
  {
    hide PayloadMatches, MailFromAllowed, HeadersAllowed, Fresh;
    assert uuid !in db;
  }

  lemma FreshHolds(r: Request)
    ensures HoldsRequest(Fresh(r), r)
  {
  }

  /** Everything else that a call with a key answers is decided by the record it finds: the record itself if it
      matches, a mismatch if it does not, and a corruption if it cannot be read. */
  lemma FoundRecordDecides(t: Rules, db: Table, r: Request, uuid: Id, id: Id)
    requires Unique(db) && r.key.Some? && r.key.value != "" && GetOrCreate(t, db, r, uuid).result != InvalidMailFrom
    requires id in db && db[id].caller == r.caller && db[id].key == r.key
    ensures GetOrCreate(t, db, r, uuid)
            == match PayloadMatches(t.text, db[id].payload, r)
               case Matches => Outcome(db, Returned(id))
               case Differs => Outcome(db, Mismatch)
               case Corrupt => Outcome(db, Corruption)
  {
    hide MailFromAllowed, PayloadMatches, HeadersAllowed;
    assert id in Matching(db, r);
    OneMatch(db, r);
  }

  /** What a new row holds. */
  lemma NewRowHolds(t: Rules, db: Table, r: Request, uuid: Id)
    requires Unique(db) && uuid !in db && GetOrCreate(t, db, r, uuid).result == Returned(uuid)
    ensures var o := GetOrCreate(t, db, r, uuid);
            && o.db.Keys == db.Keys + {uuid} && (forall x :: x in db ==> o.db[x] == db[x])
            && HoldsRequest(o.db[uuid], r)
  {
    hide MailFromAllowed, PayloadMatches, HeadersAllowed;
    OneMatch(db, r);
  }

  /** A PENDING record that nobody has worked on, with the columns of its request. */
  predicate HoldsRequest(rec: Record, r: Request) {
    && rec.status == Pending && rec.retryCount == 0 && rec.sweeps == 0 && rec.audit == [Entry(Pending, None)]
    && rec.caller == r.caller && rec.key == r.key
    && rec.payload.from_ == r.from_
    && rec.payload.envelopeFrom
       == (if r.envelopeFrom == None || r.envelopeFrom == Some("") then r.from_ else r.envelopeFrom.value)
    && rec.payload.profile == r.profile && rec.payload.replyTo == r.replyTo
    && rec.payload.to == Decoded(r.to)
    && rec.payload.cc == (if r.cc == None then Missing else Decoded(r.cc.value))
    && rec.payload.bcc == (if r.bcc == None then Missing else Decoded(r.bcc.value))
    && rec.payload.headers == (if r.headers == None then Missing else Decoded(r.headers.value))
    && rec.payload.tags == (if r.tags == None then Missing else Decoded(r.tags.value))
    && rec.payload.attachments == (if r.attachments == None then Missing else Decoded(r.attachments.value))
    && rec.payload.subject == r.subject && rec.payload.body == r.body && rec.payload.html == r.html
  }
}
