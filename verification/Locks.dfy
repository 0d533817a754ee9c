/** `RedisLock`: `SET key token NX EX ttl`, and a release that deletes the key only for its own token. */
module Locks {
  import opened Base

  datatype Lease = Lease(token: Token, expiry: int)

  type Leases = map<Id, Lease>

  /** Redis no longer shows a key whose time to live is over. */
  predicate Held(l: Leases, now: int, id: Id) { id in l && now < l[id].expiry }

  function Acquire(l: Leases, now: int, id: Id, token: Token, ttl: nat): Leases {
    if Held(l, now, id) then l else l[id := Lease(token, now + ttl)]
  }

  function Release(l: Leases, now: int, id: Id, token: Token): Leases {
    if Held(l, now, id) && l[id].token == token then l - {id} else l
  }
}
