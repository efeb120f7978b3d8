/**
 * The fixed-interval limiter `riot_get` of the timeline and match-detail
 * fetchers: one last-call time per routing domain, and a request to a
 * domain waits until `ROUTING_INTERVAL` has passed since that domain's last
 * call. The per-domain lock is taken to make each check-request-update step
 * atomic, so the limiter is a state machine over an integer wall clock in
 * milliseconds.
 */
module RateLimit {
  import opened Routing

  /** `ROUTING_INTERVAL = 120 / 100` seconds: 100 requests per 120 s. */
  const ROUTING_INTERVAL := 1200

  /**
   * A request the limiter let through: its domain, the instant it was sent,
   * and whether `session.get` returned (a raised request exception leaves
   * the domain's last-call time as it was).
   */
  datatype Grant = Grant(routing: RoutingDomain, at: int, returned: bool)

  /**
   * How long `riot_get` sleeps before a request issued at `now` when the
   * domain's last call ended at `last`: nothing once the interval has
   * passed, otherwise exactly what is left of it.
   */
  function Wait(now: int, last: int): (w: nat)
    ensures now + w >= last + ROUTING_INTERVAL
    ensures w == 0 <==> now - last >= ROUTING_INTERVAL
    ensures w > 0 ==> now + w == last + ROUTING_INTERVAL
  {
    var elapsed := now - last;
    if elapsed < ROUTING_INTERVAL then ROUTING_INTERVAL - elapsed else 0
  }

  /**
   * Every grant to a domain is at least one interval after each earlier
   * grant to that domain whose request returned. A failed request is not
   * recorded as a last call, so nothing spaces the next request from it.
   */
  ghost predicate Spaced(grants: seq<Grant>) {
    forall i, j :: 0 <= i < j < |grants| && grants[i].routing == grants[j].routing && grants[i].returned ==>
      grants[i].at + ROUTING_INTERVAL <= grants[j].at
  }

  class Limiter {
    /** `time.time()`, in milliseconds. */
    var clock: int
    /** `last_call_time`: a `defaultdict(float)`, so an absent domain reads as 0. */
    var lastCall: map<RoutingDomain, int>
    /** Every request sent so far, in order. */
    ghost var grants: seq<Grant>

    ghost predicate Valid()
      reads this
    {
      && clock >= ROUTING_INTERVAL
      && (forall r :: r in lastCall ==> lastCall[r] <= clock)
      && (forall i :: 0 <= i < |grants| && grants[i].returned ==>
            grants[i].routing in lastCall && grants[i].at <= lastCall[grants[i].routing])
      && (forall i :: 0 <= i < |grants| ==> grants[i].at <= clock)
      && Spaced(grants)
    }

    function LastCall(r: RoutingDomain): int
      reads this
    {
      if r in lastCall then lastCall[r] else 0
    }

    /** The module is loaded at wall-clock time `now` (seconds since the epoch, far beyond one interval). */
    constructor(now: int)
      requires now >= ROUTING_INTERVAL
      ensures Valid()
      ensures clock == now && lastCall == map[] && grants == []
    {
      clock := now;
      lastCall := map[];
      grants := [];
    }

    /** Time passes outside the limiter: parsing, merging, other domains' requests, retry back-offs. */
    method Elapse(d: nat)
      requires Valid()
      modifies this
      ensures Valid()
      ensures clock == old(clock) + d
      ensures lastCall == old(lastCall) && grants == old(grants)
    {
      clock := clock + d;
    }

    /**
     * `riot_get(session, routing, url)`: sleep out the rest of the interval
     * if the domain's last call is too recent, send the request (which takes
     * `latency` ms) and record the time the answer arrived as the domain's
     * last call. When `session.get` raises (`failed`), the exception leaves
     * before that update, so the domain's last call stays as it was. Other
     * domains' state is untouched.
     */
    method RiotGet(routing: RoutingDomain, latency: nat, failed: bool) returns (slept: nat, sentAt: int)
      requires Valid()
      modifies this
      ensures Valid()
      ensures slept == Wait(old(clock), old(LastCall(routing)))
      ensures routing !in old(lastCall) ==> slept == 0
      ensures sentAt == old(clock) + slept
      ensures sentAt >= old(LastCall(routing)) + ROUTING_INTERVAL
      ensures clock == sentAt + latency
      ensures lastCall == if failed then old(lastCall) else old(lastCall)[routing := clock]
      ensures forall r :: r != routing ==> LastCall(r) == old(LastCall(r))
      ensures grants == old(grants) + [Grant(routing, sentAt, !failed)]
    {
      var elapsed := clock - LastCall(routing);
      slept := 0;
      if elapsed < ROUTING_INTERVAL {
        slept := ROUTING_INTERVAL - elapsed;
        clock := clock + slept;
      }
      sentAt := clock;
      clock := clock + latency;
      if !failed {
        lastCall := lastCall[routing := clock];
      }
      grants := grants + [Grant(routing, sentAt, !failed)];
    }
  }

  /** Two requests in a row to one domain, with no time between them, are one interval apart. */
  method BackToBack(now: int, latency: nat) returns (first: int, second: int)
    requires now >= ROUTING_INTERVAL
    ensures second >= first + ROUTING_INTERVAL + latency
  {
    var limiter := new Limiter(now);
    var w1, w2;
    w1, first := limiter.RiotGet(Europe, latency, false);
    w2, second := limiter.RiotGet(Europe, latency, false);
  }

  /** A request to another domain right after one to Europe does not wait: the domains do not share state. */
  method DomainsIndependent(now: int, latency: nat) returns (slept: nat)
    requires now >= ROUTING_INTERVAL
    ensures slept == 0
  {
    var limiter := new Limiter(now);
    var w, t;
    w, t := limiter.RiotGet(Europe, latency, false);
    slept, t := limiter.RiotGet(Asia, latency, false);
  }

  /**
   * A request that raised does not hold back the next one: after a
   * successful call and then a failed one, a third call right away is
   * spaced from the successful call only, and goes out as soon as the
   * failed request's latency has passed.
   */
  method FailedCallNotSpaced(now: int, latency: nat) returns (failedAt: int, nextAt: int)
    requires now >= ROUTING_INTERVAL
    ensures nextAt == failedAt + latency
  {
    var limiter := new Limiter(now);
    var w, t;
    w, t := limiter.RiotGet(Europe, latency, false);
    w, failedAt := limiter.RiotGet(Europe, latency, true);
    w, nextAt := limiter.RiotGet(Europe, latency, false);
  }

  /**
   * `get_trajectories` sleeps `2 + attempt` seconds after a connection
   * error before its next request, which puts that request more than one
   * interval after the failed one although the limiter did not record it.
   */
  method RetryAfterFailureSpaced(now: int, latency: nat, attempt: nat) returns (failedAt: int, nextAt: int)
    requires now >= ROUTING_INTERVAL
    ensures nextAt >= failedAt + ROUTING_INTERVAL
    ensures nextAt == failedAt + latency + 1000 * (2 + attempt)
  {
    var limiter := new Limiter(now);
    var w;
    w, failedAt := limiter.RiotGet(Europe, latency, true);
    limiter.Elapse(1000 * (2 + attempt));
    w, nextAt := limiter.RiotGet(Europe, latency, false);
  }
}
