/** Names shared by every part of the delivery pipeline. */
module Base {

  /** Record ids are `uuid4` strings of fixed length in lower-case hexadecimal; Redis compares them
      byte by byte, which is the order of the 128-bit numbers they spell. */
  type Id = nat

  /** Lock tokens (`secrets.token_urlsafe`), never drawn twice. */
  type Token = nat

  datatype Option<+T> = None | Some(value: T)

  /** How one call to Redis or to the database ends. A failing call may already have taken effect on
      the server. `generic` tells, for the database, an exception other than `OperationalError`; Redis
      calls fail with `RedisError` only. */
  datatype Fault = Fine | Fails(applied: bool, generic: bool)

  predicate Applied(f: Fault) { f.Fine? || f.applied }

  function Get0<K>(m: map<K, nat>, k: K): nat {
    if k in m then m[k] else 0
  }

  function Max(a: int, b: int): int { if a < b then b else a }

  function Min(a: int, b: int): int { if a < b then a else b }
}
