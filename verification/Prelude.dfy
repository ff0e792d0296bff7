/** Shared value types: optional values, results and the clock. */
module Prelude {
  datatype Option<+T> = None | Some(value: T)

  datatype Result<+T, +E> = Ok(value: T) | Err(error: E)

  /** Nanoseconds since the zero `time.Time` (1 January of year 1). */
  type Time = int

  const SECOND: int := 1_000_000_000

  /** What Redis adds to an expiry date before a key may disappear (token_repo_redis.go:19). */
  const LEEWAY: int := 10 * SECOND

  /** EXPIREAT takes whole seconds: the instant after which a record written with `expiresAt` may vanish. */
  function Deadline(expiresAt: Time): (d: Time)
    ensures expiresAt + LEEWAY - SECOND < d <= expiresAt + LEEWAY
    ensures d % SECOND == 0
  {
    (expiresAt + LEEWAY) / SECOND * SECOND
  }

  /** `time.Now().UTC().After(expiresAt)`, with the zero date meaning "never" (token.go:54-60, session.go:29-34). */
  predicate PastExpiry(expiresAt: Time, now: Time) {
    expiresAt != 0 && expiresAt < now
  }

  function Find<K, V>(m: map<K, V>, k: K): Option<V> {
    if k in m then Some(m[k]) else None
  }
}
