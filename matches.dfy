/**
 * The match-id fetcher: `get_match_ids` (a retry loop with exponential
 * backoff on server errors) and the per-domain worker that adds every
 * player's recent match ids to the shared set.
 */
module Matches {
  import opened Wrappers
  import opened Http
  import opened Routing
  import opened Players

  /** Statuses below this that are neither 200 nor 429 are client errors: no retry. */
  const FIRST_RETRIED_STATUS := 416

  // ---------------------------------------------------------------------
  // get_match_ids: the retry loop

  /** A call of `get_match_ids`: what it returns (or that it raised), the requests sent and the seconds slept. */
  datatype MatchIdsFetch = MatchIdsFetch(result: Call<seq<string>>, requests: nat, sleeps: seq<nat>)

  predicate RateLimited(r: Response<seq<string>>) {
    r.Reply? && r.status == TOO_MANY_REQUESTS
  }

  /** A status from 416 up, other than 429: retried after a backoff. */
  predicate ServerError(r: Response<seq<string>>) {
    r.Reply? && r.status >= FIRST_RETRIED_STATUS && r.status != TOO_MANY_REQUESTS
  }

  predicate Retried(r: Response<seq<string>>) {
    RateLimited(r) || ServerError(r)
  }

  /**
   * The sleep after the request of attempt `attempt`: `Retry-After` + 1 for
   * a 429 (`Retry-After` 1 when absent), `2 ** attempt` for a server error
   * unless it was the last attempt, nothing otherwise.
   */
  function BackoffAfter(attempt: nat, maxRetries: nat, r: Response<seq<string>>): seq<nat> {
    if RateLimited(r) then [r.retryAfter.GetOr(1) + 1]
    else if ServerError(r) && attempt < maxRetries - 1 then [Pow2(attempt)]
    else []
  }

  /**
   * `get_match_ids` from attempt `attempt` on, when request k is answered
   * with `server(k)`. Each request is followed by at most one sleep.
   */
  function MatchIdsFrom(server: nat -> Response<seq<string>>, maxRetries: nat, attempt: nat): (r: MatchIdsFetch)
    ensures attempt <= r.requests
    ensures |r.sleeps| <= r.requests - attempt
    decreases maxRetries - attempt
  {
    if attempt >= maxRetries then MatchIdsFetch(Returned([]), attempt, [])
    else
      match server(attempt)
      case ConnectionError => MatchIdsFetch(Raised, attempt + 1, [])
      case Reply(status, retryAfter, body) =>
        if status == OK then MatchIdsFetch(Returned(body), attempt + 1, [])
        else if status == TOO_MANY_REQUESTS then
          var rest := MatchIdsFrom(server, maxRetries, attempt + 1);
          rest.(sleeps := [retryAfter.GetOr(1) + 1] + rest.sleeps)
        else if status < FIRST_RETRIED_STATUS then MatchIdsFetch(Returned([]), attempt + 1, [])
        else
          var rest := MatchIdsFrom(server, maxRetries, attempt + 1);
          rest.(sleeps := (if attempt < maxRetries - 1 then [Pow2(attempt)] else []) + rest.sleeps)
  }

  /** The sleeps of the requests of attempts `from` up to `to`, in order. */
  function Backoffs(server: nat -> Response<seq<string>>, maxRetries: nat, from: nat, to: nat): seq<nat>
    decreases to - from
  {
    if from >= to then [] else BackoffAfter(from, maxRetries, server(from)) + Backoffs(server, maxRetries, from + 1, to)
  }

  /**
   * The promise of `get_match_ids` from attempt `start` on: at most
   * `maxRetries` requests; only 429s and server errors are retried; it
   * raises exactly when the last request failed to connect; a non-empty
   * result is the body of a final 200; and the sleeps are the backoffs of
   * the retried answers, in order.
   */
  ghost predicate MatchIdsContract(server: nat -> Response<seq<string>>, maxRetries: nat, start: nat, o: MatchIdsFetch) {
    && start <= o.requests <= maxRetries
    && (forall k :: start <= k < o.requests - 1 ==> Retried(server(k)))
    && (o.requests < maxRetries ==> o.requests > start && !Retried(server(o.requests - 1)))
    && (o.result.Raised? <==> o.requests > start && server(o.requests - 1).ConnectionError?)
    && (o.result.Returned? && o.requests > start && IsOk(server(o.requests - 1)) ==> o.result.value == server(o.requests - 1).body)
    && (o.result.Returned? && o.result.value != [] ==> o.requests > start && IsOk(server(o.requests - 1)))
    && o.sleeps == Backoffs(server, maxRetries, start, o.requests)
  }

  lemma {:induction false} MatchIdsOutcome(server: nat -> Response<seq<string>>, maxRetries: nat, attempt: nat)
    requires attempt <= maxRetries
    ensures MatchIdsContract(server, maxRetries, attempt, MatchIdsFrom(server, maxRetries, attempt))
    decreases maxRetries - attempt
  {
    if attempt < maxRetries && Retried(server(attempt)) {
      MatchIdsOutcome(server, maxRetries, attempt + 1);
    }
  }

  /** `spec` is what remains, `rest`, after the sleeps `done` already happened. */
  ghost predicate Resumes(spec: MatchIdsFetch, done: seq<nat>, rest: MatchIdsFetch) {
    spec == rest.(sleeps := done + rest.sleeps)
  }

  lemma BackoffStep(server: nat -> Response<seq<string>>, maxRetries: nat, attempt: nat, done: seq<nat>, spec: MatchIdsFetch)
    requires attempt < maxRetries && Retried(server(attempt))
    requires Resumes(spec, done, MatchIdsFrom(server, maxRetries, attempt))
    ensures Resumes(spec, done + BackoffAfter(attempt, maxRetries, server(attempt)), MatchIdsFrom(server, maxRetries, attempt + 1))
  {
    var rest := MatchIdsFrom(server, maxRetries, attempt + 1);
    var b := BackoffAfter(attempt, maxRetries, server(attempt));
    assert done + (b + rest.sleeps) == (done + b) + rest.sleeps;
  }

  /** What an answer that is not retried makes the call end with. */
  function Final(r: Response<seq<string>>): Call<seq<string>> {
    if r.ConnectionError? then Raised else if r.status == OK then Returned(r.body) else Returned([])
  }

  lemma FinalStep(server: nat -> Response<seq<string>>, maxRetries: nat, attempt: nat, done: seq<nat>, spec: MatchIdsFetch)
    requires attempt < maxRetries && !Retried(server(attempt))
    requires Resumes(spec, done, MatchIdsFrom(server, maxRetries, attempt))
    ensures spec == MatchIdsFetch(Final(server(attempt)), attempt + 1, done)
  {
  }

  /**
   * `get_match_ids`: up to `maxRetries` requests; a 200 returns its body; a
   * 429 sleeps `Retry-After` + 1 seconds and retries; another status below
   * 416 returns `[]` at once; any other status sleeps `2 ** attempt` seconds
   * (except after the last attempt) and retries; running out of attempts
   * returns `[]`; a connection error is not caught.
   */
  method GetMatchIds(server: nat -> Response<seq<string>>, maxRetries: nat) returns (result: Call<seq<string>>, requests: nat, sleeps: seq<nat>)
    ensures MatchIdsFetch(result, requests, sleeps) == MatchIdsFrom(server, maxRetries, 0)
  {
    ghost var spec := MatchIdsFrom(server, maxRetries, 0);
    result, requests, sleeps := Returned([]), 0, [];
    var attempt := 0;
    while attempt < maxRetries
      invariant attempt <= maxRetries && requests == attempt
      invariant Resumes(spec, sleeps, MatchIdsFrom(server, maxRetries, attempt))
    {
      var response := server(attempt);
      requests := requests + 1;
      var done, outcome, slept := Classify(response, attempt, maxRetries);
      if done {
        FinalStep(server, maxRetries, attempt, sleeps, spec);
        return outcome, requests, sleeps;
      }
      BackoffStep(server, maxRetries, attempt, sleeps, spec);
      sleeps := sleeps + slept;
      attempt := attempt + 1;
    }
    result := Returned([]);
  }

  /**
   * One pass of the loop of `get_match_ids` over its answer: a 200 ends it
   * with the body, a 429 sleeps `Retry-After` + 1 seconds, another status
   * below 416 ends it with `[]`, any other status sleeps `2 ** attempt`
   * seconds unless this is the last attempt, and a connection error escapes.
   */
  method Classify(response: Response<seq<string>>, attempt: nat, maxRetries: nat) returns (done: bool, outcome: Call<seq<string>>, slept: seq<nat>)
    ensures done <==> !Retried(response)
    ensures done ==> outcome == Final(response)
    ensures !done ==> slept == BackoffAfter(attempt, maxRetries, response)
  {
    slept := [];
    if response.ConnectionError? {
      return true, Raised, [];
    } else if response.status == OK {
      return true, Returned(response.body), [];
    } else if response.status == TOO_MANY_REQUESTS {
      return false, Returned([]), [response.retryAfter.GetOr(1) + 1];
    } else if response.status < FIRST_RETRIED_STATUS {
      return true, Returned([]), [];
    } else {
      if attempt < maxRetries - 1 {
        slept := [Pow2(attempt)];
      }
      return false, Returned([]), slept;
    }
  }

  /** Three server errors: `[]` after three requests, backing off 1 then 2 seconds and not after the last. */
  lemma ServerErrorsBackOff(server: nat -> Response<seq<string>>)
    requires forall k: nat :: k < MAX_RETRIES ==> server(k).Reply? && server(k).status == 503
    ensures MatchIdsFrom(server, MAX_RETRIES, 0) == MatchIdsFetch(Returned([]), 3, [1, 2])
  {
    assert server(0).status == 503 && server(1).status == 503 && server(2).status == 503;
  }

  /** A client error such as 404 ends the call at once, without a sleep. */
  lemma ClientErrorIsFinal(server: nat -> Response<seq<string>>, maxRetries: nat)
    requires maxRetries > 0 && server(0).Reply? && server(0).status != OK && server(0).status < FIRST_RETRIED_STATUS
    ensures MatchIdsFrom(server, maxRetries, 0) == MatchIdsFetch(Returned([]), 1, [])
  {
  }

  /** A 429 without `Retry-After` then a 200: the ids, after one sleep of two seconds. */
  lemma RateLimitedThenServed(server: nat -> Response<seq<string>>, ids: seq<string>)
    requires server(0).Reply? && server(0).status == TOO_MANY_REQUESTS && server(0).retryAfter == None
    requires server(1) == Reply(OK, None, ids)
    ensures MatchIdsFrom(server, MAX_RETRIES, 0) == MatchIdsFetch(Returned(ids), 2, [2])
  {
  }

  // ---------------------------------------------------------------------
  // The worker and the shared set

  /** The match-id oracle: the answer to the k-th request for a puuid. */
  type IdServer = string -> nat -> Response<seq<string>>

  /** What one worker has added so far, and whether an exception escaped it. */
  datatype IdsRun = IdsRun(ids: set<string>, raised: bool)

  /** The call `get_match_ids` makes for one player. */
  function FetchFor(player: PlayerRecord, server: IdServer): Call<seq<string>> {
    MatchIdsFrom(server(player.puuid), MAX_RETRIES, 0).result
  }

  /** The ids one player contributes: what the call returned, nothing if it raised. */
  function Batch(player: PlayerRecord, server: IdServer): seq<string> {
    match FetchFor(player, server) case Returned(ids) => ids case Raised => []
  }

  /**
   * `fetch_match_ids_for_routing` over its players, in order: a non-empty
   * result is added to the set, an empty one changes nothing, and an
   * escaped exception stops the worker, so a run that did not stop met no
   * raising call.
   */
  function CollectIds(players: seq<PlayerRecord>, server: IdServer): (r: IdsRun)
    ensures !r.raised ==> forall i :: 0 <= i < |players| ==> FetchFor(players[i], server).Returned?
  {
    if players == [] then IdsRun({}, false)
    else
      var prev := CollectIds(players[..|players| - 1], server);
      var last := players[|players| - 1];
      if prev.raised then prev
      else if FetchFor(last, server).Raised? then prev.(raised := true)
      else IdsRun(prev.ids + set id | id in Batch(last, server), false)
  }

  /** The shared set of match ids, guarded by one lock. */
  class MatchIdStore {
    var ids: set<string>

    constructor()
      ensures ids == {}
    {
      ids := {};
    }

    /** `match_ids.update(batch)` */
    method Update(batch: seq<string>)
      modifies this
      ensures ids == old(ids) + set id | id in batch
    {
      ids := ids + set id | id in batch;
    }
  }

  lemma CollectIdsStep(players: seq<PlayerRecord>, i: nat, server: IdServer)
    requires i < |players|
    ensures var prev := CollectIds(players[..i], server);
      CollectIds(players[..i + 1], server)
      == if prev.raised then prev
         else if FetchFor(players[i], server).Raised? then prev.(raised := true)
         else IdsRun(prev.ids + set id | id in Batch(players[i], server), false)
  {
    assert players[..i + 1][..i] == players[..i];
  }

  /**
   * `fetch_match_ids_for_routing`: for each player of the domain's queue,
   * fetch its recent match ids and add them to the shared set when there
   * are any; an exception stops the worker (`raised`), leaving what was
   * added before it.
   */
  method FetchMatchIdsForRouting(players: seq<PlayerRecord>, server: IdServer, store: MatchIdStore) returns (raised: bool)
    modifies store
    ensures store.ids == old(store.ids) + CollectIds(players, server).ids
    ensures raised == CollectIds(players, server).raised
  {
    ghost var start := store.ids;
    raised := false;
    var i := 0;
    while i < |players| && !raised
      invariant 0 <= i <= |players|
      invariant store.ids == start + CollectIds(players[..i], server).ids
      invariant raised == CollectIds(players[..i], server).raised
    {
      CollectIdsStep(players, i, server);
      raised := FetchPlayer(players[i], server, store);
      i := i + 1;
    }
    if raised {
      RaisedStays(players, i, server);
    }
    assert players[..|players|] == players;
  }

  /** One player of the queue: fetch its ids and add them, unless the call raised. */
  method FetchPlayer(player: PlayerRecord, server: IdServer, store: MatchIdStore) returns (raised: bool)
    modifies store
    ensures raised == FetchFor(player, server).Raised?
    ensures store.ids == if raised then old(store.ids) else old(store.ids) + set id | id in Batch(player, server)
  {
    var fetched, requests, sleeps := GetMatchIds(server(player.puuid), MAX_RETRIES);
    raised := fetched.Raised?;
    if !raised && fetched.value != [] {
      store.Update(fetched.value);
    }
  }

  /** Once the worker stopped, the rest of its queue changes nothing. */
  lemma {:induction false} RaisedStays(players: seq<PlayerRecord>, i: nat, server: IdServer)
    requires i <= |players| && CollectIds(players[..i], server).raised
    ensures CollectIds(players, server) == CollectIds(players[..i], server)
    decreases |players| - i
  {
    if i < |players| {
      CollectIdsStep(players, i, server);
      RaisedStays(players, i + 1, server);
    } else {
      assert players[..i] == players;
    }
  }

  /**
   * The worker raises exactly when one of its players' calls raises; when
   * none does, the set holds exactly the ids some player's call returned.
   */
  lemma {:induction false} CollectedIds(players: seq<PlayerRecord>, server: IdServer)
    ensures CollectIds(players, server).raised <==> exists p :: p in players && FetchFor(p, server).Raised?
    ensures !CollectIds(players, server).raised ==>
      forall id :: id in CollectIds(players, server).ids <==> exists p :: p in players && id in Batch(p, server)
  {
    if players != [] {
      var init, last := players[..|players| - 1], players[|players| - 1];
      CollectedIds(init, server);
      assert players == init + [last];
      assert forall p :: p in players <==> p in init || p == last;
    }
  }

  /**
   * The order in which a worker meets its players does not change the
   * final set: two orders of the same players collect the same ids.
   */
  lemma OrderIrrelevant(a: seq<PlayerRecord>, b: seq<PlayerRecord>, server: IdServer)
    requires multiset(a) == multiset(b)
    ensures CollectIds(a, server).raised == CollectIds(b, server).raised
    ensures !CollectIds(a, server).raised ==> CollectIds(a, server).ids == CollectIds(b, server).ids
  {
    CollectedIds(a, server);
    CollectedIds(b, server);
    assert forall p :: p in a <==> p in b by {
      forall p ensures p in a <==> p in b {
        assert p in a <==> p in multiset(a);
        assert p in b <==> p in multiset(b);
      }
    }
  }

  /** A player's routing: the lookup of its region. */
  function PlayerRouting(p: PlayerRecord): Option<RoutingDomain> {
    RegionRouting(p.region)
  }

  /**
   * The four workers together: when none raised, the union of their sets
   * is exactly the ids returned for the players whose region is routed.
   */
  lemma AllRoutings(players: seq<PlayerRecord>, server: IdServer, id: string)
    requires forall d :: !CollectIds(Queue(players, PlayerRouting, d), server).raised
    ensures (exists d :: id in CollectIds(Queue(players, PlayerRouting, d), server).ids)
        <==> exists p :: p in players && PlayerRouting(p).Some? && id in Batch(p, server)
  {
    forall d ensures id in CollectIds(Queue(players, PlayerRouting, d), server).ids
                 <==> exists p :: p in Queue(players, PlayerRouting, d) && id in Batch(p, server) {
      CollectedIds(Queue(players, PlayerRouting, d), server);
    }
    if exists p :: p in players && PlayerRouting(p).Some? && id in Batch(p, server) {
      var p :| p in players && PlayerRouting(p).Some? && id in Batch(p, server);
      ExactlyOneQueue(players, PlayerRouting, p, PlayerRouting(p).value);
    }
  }
}
