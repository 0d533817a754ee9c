/** `RedisLock` over a whole run: who owned which name, and when. */
module LockHistory {
  import opened Base
  import opened Locks
  import opened QueueServices

  class RedisLock {
    var leases: Leases

    /** `SET key token NX EX ttl`; true when the key was set. */
    method Acquire(now: int, name: Id, token: Token, ttl: nat, f: Fault) returns (r: Reply<bool>)
      modifies this
      ensures leases == if Applied(f) then Locks.Acquire(old(leases), now, name, token, ttl) else old(leases)
      ensures r == Given(f, !Held(old(leases), now, name))
    {
      var free := !(name in leases && now < leases[name].expiry);
      if Applied(f) && free { leases := leases[name := Lease(token, now + ttl)]; }
      r := Given(f, free);
    }

    /** The release script. */
    method Release(now: int, name: Id, token: Token, f: Fault) returns (r: Reply<bool>)
      modifies this
      ensures leases == if Applied(f) then Locks.Release(old(leases), now, name, token) else old(leases)
      ensures r == Given(f, Held(old(leases), now, name) && old(leases)[name].token == token)
    {
      var mine := name in leases && now < leases[name].expiry && leases[name].token == token;
      if Applied(f) && mine { leases := leases - {name}; }
      r := Given(f, mine);
    }
  }

  /** Ownership of `name` by `token` from `from` until just before `until`. */
  datatype Grant = Grant(name: Id, from: int, until: int)

  datatype History = History(now: int, leases: Leases, grants: map<Token, Grant>)

  datatype Op = TryAcquire(name: Id, token: Token, ttl: nat) | TryRelease(name: Id, token: Token) | Wait(d: nat)

  /** Tokens are drawn once. */
  predicate Allowed(h: History, op: Op) { op.TryAcquire? ==> op.token !in h.grants }

  function Do(h: History, op: Op): History {
    match op
    case TryAcquire(name, token, ttl) =>
      if Held(h.leases, h.now, name) then h
      else History(h.now, Locks.Acquire(h.leases, h.now, name, token, ttl),
                   h.grants[token := Grant(name, h.now, h.now + ttl)])
    case TryRelease(name, token) =>
      var h' := h.(leases := Locks.Release(h.leases, h.now, name, token));
      if h'.leases == h.leases || token !in h.grants then h'
      else h'.(grants := h.grants[token := h.grants[token].(until := h.now)])
    case Wait(d) => h.(now := h.now + d)
  }

  predicate Owns(h: History, token: Token, name: Id) {
    token in h.grants && h.grants[token].name == name && h.grants[token].from <= h.now < h.grants[token].until
  }

  ghost predicate Disjoint(h: History) {
    forall t, u :: t in h.grants && u in h.grants && t != u && h.grants[t].name == h.grants[u].name ==>
      h.grants[t].until <= h.grants[u].from || h.grants[u].until <= h.grants[t].from
  }

  ghost predicate Recorded(h: History) {
    && (forall t :: t in h.grants ==> h.grants[t].from <= h.grants[t].until && h.grants[t].from <= h.now)
    && (forall n :: n in h.leases ==>
          && h.leases[n].token in h.grants
          && h.grants[h.leases[n].token].name == n && h.grants[h.leases[n].token].until == h.leases[n].expiry)
    && (forall t :: t in h.grants && h.now < h.grants[t].until ==>
          h.grants[t].name in h.leases && h.leases[h.grants[t].name].token == t)
  }

  lemma KeptByAcquire(h: History, name: Id, token: Token, ttl: nat)
    requires Recorded(h) && Disjoint(h) && token !in h.grants
    ensures Recorded(Do(h, TryAcquire(name, token, ttl))) && Disjoint(Do(h, TryAcquire(name, token, ttl)))
  {
    var h' := Do(h, TryAcquire(name, token, ttl));
    if !Held(h.leases, h.now, name) {
      forall t | t in h.grants && h.grants[t].name == name ensures h.grants[t].until <= h.now {
      }
      assert h'.leases == h.leases[name := Lease(token, h.now + ttl)];
      assert h'.grants == h.grants[token := Grant(name, h.now, h.now + ttl)];
    }
  }

  /** The state after `token` has given `name` up. */
  function GivenUp(h: History, name: Id, token: Token): History
    requires token in h.grants
  {
    History(h.now, h.leases - {name}, h.grants[token := h.grants[token].(until := h.now)])
  }

  lemma RecordedWhenGivenUp(h: History, name: Id, token: Token)
    requires Recorded(h) && Held(h.leases, h.now, name) && h.leases[name].token == token
    ensures Recorded(GivenUp(h, name, token))
  {
  }

  lemma DisjointWhenGivenUp(h: History, name: Id, token: Token)
    requires Recorded(h) && Disjoint(h) && Held(h.leases, h.now, name) && h.leases[name].token == token
    ensures Disjoint(GivenUp(h, name, token))
  {
  }

  lemma KeptByRelease(h: History, name: Id, token: Token)
    requires Recorded(h) && Disjoint(h)
    ensures Recorded(Do(h, TryRelease(name, token))) && Disjoint(Do(h, TryRelease(name, token)))
  {
    var h' := Do(h, TryRelease(name, token));
    if Held(h.leases, h.now, name) && h.leases[name].token == token {
      assert name in h.leases && name !in h'.leases;
      assert h' == GivenUp(h, name, token);
      RecordedWhenGivenUp(h, name, token);
      DisjointWhenGivenUp(h, name, token);
    }
  }

  lemma Kept(h: History, op: Op)
    requires Recorded(h) && Disjoint(h) && Allowed(h, op)
    ensures Recorded(Do(h, op)) && Disjoint(Do(h, op))
  {
    match op
    case TryAcquire(name, token, ttl) => KeptByAcquire(h, name, token, ttl);
    case TryRelease(name, token) => KeptByRelease(h, name, token);
    case Wait(d) =>
  }

  function DoAll(h: History, ops: seq<Op>): History
    decreases |ops|
  {
    if ops == [] then h else DoAll(Do(h, ops[0]), ops[1..])
  }

  predicate AllAllowed(h: History, ops: seq<Op>)
    decreases |ops|
  {
    ops != [] ==> Allowed(h, ops[0]) && AllAllowed(Do(h, ops[0]), ops[1..])
  }

  /** In every run ownership intervals of one name never overlap, and the key shows a token exactly
      while that token owns the name. */
  lemma {:induction false} OwnershipIsExclusive(h: History, ops: seq<Op>)
    requires Recorded(h) && Disjoint(h) && AllAllowed(h, ops)
    ensures var h' := DoAll(h, ops);
            && Recorded(h') && Disjoint(h')
            && forall t, n :: Owns(h', t, n) <==> Held(h'.leases, h'.now, n) && h'.leases[n].token == t
    decreases |ops|
  {
    if ops == [] {
      forall t, n | Held(h.leases, h.now, n) && h.leases[n].token == t ensures Owns(h, t, n) {
      }
    } else {
      Kept(h, ops[0]);
      OwnershipIsExclusive(Do(h, ops[0]), ops[1..]);
    }
  }

  /** A release removes the key exactly when its token owns the name at that moment. */
  lemma ReleaseOnlyByOwner(h: History, name: Id, token: Token)
    requires Recorded(h) && Disjoint(h)
    ensures Locks.Release(h.leases, h.now, name, token) != h.leases <==> Owns(h, token, name)
  {
    OwnershipIsExclusive(h, []);
    if Owns(h, token, name) {
      assert name in h.leases && name !in Locks.Release(h.leases, h.now, name, token);
    }
  }
}
