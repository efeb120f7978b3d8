/**
 * The HTTP transport as the retry loops see it. A response is abstract: a
 * status code, the optional `Retry-After` header already read as whole
 * seconds, and the decoded JSON body; or a connection-level
 * `requests.exceptions.RequestException` raised by `session.get`.
 */
module Http {
  import opened Wrappers

  datatype Response<B> =
    | Reply(status: int, retryAfter: Option<nat>, body: B)
    | ConnectionError

  /** How a call ended when its caller does not catch request exceptions. */
  datatype Call<T> = Returned(value: T) | Raised

  const OK := 200
  const TOO_MANY_REQUESTS := 429

  /** `max_retries`' default in all three retry loops. */
  const MAX_RETRIES := 3

  predicate IsOk<B>(r: Response<B>) {
    r.Reply? && r.status == OK
  }

  /** `2 ** n` */
  function Pow2(n: nat): (p: nat)
    ensures p >= 1
  {
    if n == 0 then 1 else 2 * Pow2(n - 1)
  }
}
