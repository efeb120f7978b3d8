/**
 * The role fetcher: `get_roles` (a retry loop that lets connection errors
 * escape), `parse_match_roles` (one match document to ten role rows, for
 * classic games only) and the per-domain worker that merges every parsed
 * match into the shared role list and the shared set of processed match ids.
 */
module Roles {
  import opened Wrappers
  import opened Http

  // ---------------------------------------------------------------------
  // The match document and the rows made from it

  /** One entry of `info.participants`: its `teamPosition` and `championName`, each possibly missing. */
  datatype Participant = Participant(teamPosition: Option<string>, championName: Option<string>)

  /** `metadata.matchId`, `metadata.participants` (puuids by slot), `info.gameMode` and `info.participants`. */
  datatype MatchDoc = MatchDoc(matchId: string, puuids: seq<string>, gameMode: string, participants: seq<Participant>)

  datatype RoleRow = RoleRow(puuid: string, matchId: string, role: Option<string>, champion: Option<string>)

  /**
   * What `parse_match_roles` gives: the ten rows and the match id of a
   * classic game, `(None, None)` for any other game mode, or a refusal where
   * the source would index outside its table or its puuid list.
   */
  datatype RolesParse =
    | Parsed(rows: seq<RoleRow>, matchId: string)
    | NotClassic
    | Malformed

  /** The only game mode roles are read from. */
  const CLASSIC := "CLASSIC"
  /** The table has slots 1..10. */
  const SLOTS := 10
  const SLOT_IDS: set<int> := {1, 2, 3, 4, 5, 6, 7, 8, 9, 10}

  /** A participant past slot ten that would be written: it has a `teamPosition`. */
  predicate Overflows(doc: MatchDoc, k: int)
    requires 0 <= k < |doc.participants|
  {
    k >= SLOTS && doc.participants[k].teamPosition.Some?
  }

  predicate WellFormed(doc: MatchDoc) {
    SLOTS <= |doc.puuids| && forall k :: 0 <= k < |doc.participants| ==> !Overflows(doc, k)
  }

  /**
   * The row of slot `pid` once the first `n` participants were read: the
   * slot's puuid and the match id, and the role and champion of participant
   * `pid` when it was read and has a `teamPosition`.
   */
  function SlotRole(doc: MatchDoc, pid: int, n: nat): RoleRow
    requires 1 <= pid <= SLOTS <= |doc.puuids| && n <= |doc.participants|
  {
    var seed := RoleRow(doc.puuids[pid - 1], doc.matchId, None, None);
    if pid <= n && doc.participants[pid - 1].teamPosition.Some? then
      seed.(role := doc.participants[pid - 1].teamPosition, champion := doc.participants[pid - 1].championName)
    else seed
  }

  /** `parse_match_roles` as a function of the document. */
  function MatchRoles(doc: MatchDoc): (r: RolesParse)
    ensures r.NotClassic? <==> doc.gameMode != CLASSIC
    ensures r.Malformed? <==> doc.gameMode == CLASSIC && !WellFormed(doc)
    ensures r.Parsed? ==> r.matchId == doc.matchId && |r.rows| == SLOTS
  {
    if doc.gameMode != CLASSIC then NotClassic
    else if !WellFormed(doc) then Malformed
    else Parsed(seq(SLOTS, i requires 0 <= i < SLOTS => SlotRole(doc, i + 1, |doc.participants|)), doc.matchId)
  }

  /**
   * Slot alignment: row i carries puuid i and the match id; it has a role
   * exactly when participant i + 1 exists and has a `teamPosition`, and
   * then it has that participant's role and champion (the champion may
   * still be missing); a row without a role has no champion either.
   */
  lemma RoleRowsAligned(doc: MatchDoc, i: int)
    requires MatchRoles(doc).Parsed? && 0 <= i < SLOTS
    ensures var row := MatchRoles(doc).rows[i];
      && row.puuid == doc.puuids[i]
      && row.matchId == doc.matchId
      && (row.role.Some? <==> i < |doc.participants| && doc.participants[i].teamPosition.Some?)
      && (row.role.Some? ==> row.role == doc.participants[i].teamPosition && row.champion == doc.participants[i].championName)
      && (row.role.None? ==> row.champion.None?)
  {
  }

  /** The table after reading the first `n` participants. */
  ghost predicate TableAfter(doc: MatchDoc, players: map<int, RoleRow>, n: nat)
    requires SLOTS <= |doc.puuids| && n <= |doc.participants|
  {
    forall pid :: 1 <= pid <= SLOTS ==> pid in players && players[pid] == SlotRole(doc, pid, n)
  }

  /**
   * `parse_match_roles`: for a classic game, seed the ten-slot table, read
   * the participants into it, and return its rows with the match id.
   */
  method ParseMatchRoles(doc: MatchDoc) returns (r: RolesParse)
    ensures r == MatchRoles(doc)
  {
    if doc.gameMode != CLASSIC {
      return NotClassic;
    }
    if |doc.puuids| < SLOTS {
      return Malformed;
    }
    var players := map pid | pid in SLOT_IDS :: RoleRow(doc.puuids[pid - 1], doc.matchId, None, None);
    var overflow;
    players, overflow := ReadParticipants(doc, players);
    if overflow {
      return Malformed;
    }
    r := Parsed(seq(SLOTS, i requires 0 <= i < SLOTS => players[i + 1]), doc.matchId);
    FinishedTable(doc, players);
  }

  /**
   * The loop of `parse_match_roles` over `info.participants`, numbered from
   * slot 1: a participant without a `teamPosition` is skipped, the others
   * set role and champion of their slot; a participant past slot ten that
   * would be written stops the loop (`overflow`).
   */
  method ReadParticipants(doc: MatchDoc, seed: map<int, RoleRow>) returns (players: map<int, RoleRow>, overflow: bool)
    requires SLOTS <= |doc.puuids| && seed.Keys == SLOT_IDS && TableAfter(doc, seed, 0)
    ensures overflow <==> exists k :: 0 <= k < |doc.participants| && Overflows(doc, k)
    ensures !overflow ==> TableAfter(doc, players, |doc.participants|)
  {
    players := seed;
    var k := 0;
    while k < |doc.participants|
      invariant 0 <= k <= |doc.participants|
      invariant players.Keys == SLOT_IDS
      invariant forall j :: 0 <= j < k ==> !Overflows(doc, j)
      invariant TableAfter(doc, players, k)
    {
      var idx := k + 1;
      var role := doc.participants[k].teamPosition;
      var champion := doc.participants[k].championName;
      if role.None? {
        TableStep(doc, players, players, k);
        k := k + 1;
        continue;
      }
      if !(idx in players) {
        assert Overflows(doc, k);
        return players, true;
      }
      var next := players[idx := players[idx].(role := role, champion := champion)];
      TableStep(doc, players, next, k);
      players := next;
      k := k + 1;
    }
    overflow := false;
  }

  /** Reading participant `k + 1` into the table. */
  lemma TableStep(doc: MatchDoc, players: map<int, RoleRow>, next: map<int, RoleRow>, k: nat)
    requires SLOTS <= |doc.puuids| && k < |doc.participants| && players.Keys == SLOT_IDS
    requires TableAfter(doc, players, k)
    requires doc.participants[k].teamPosition.Some? ==> k + 1 <= SLOTS
    requires var p := doc.participants[k];
      next == if p.teamPosition.None? then players
              else players[k + 1 := players[k + 1].(role := p.teamPosition, champion := p.championName)]
    ensures TableAfter(doc, next, k + 1)
  {
  }

  /** A table that has read every participant without overflowing is the parse of the document. */
  lemma FinishedTable(doc: MatchDoc, players: map<int, RoleRow>)
    requires doc.gameMode == CLASSIC && SLOTS <= |doc.puuids|
    requires forall j :: 0 <= j < |doc.participants| ==> !Overflows(doc, j)
    requires TableAfter(doc, players, |doc.participants|)
    ensures MatchRoles(doc) == Parsed(seq(SLOTS, i requires 0 <= i < SLOTS => players[i + 1]), doc.matchId)
  {
    assert WellFormed(doc);
    assert MatchRoles(doc).rows == seq(SLOTS, i requires 0 <= i < SLOTS => players[i + 1]);
  }

  /** Any other game mode gives nothing, whatever else the document holds. */
  lemma OnlyClassicGamesGiveRows(doc: MatchDoc, mode: string)
    requires mode != CLASSIC
    ensures MatchRoles(doc.(gameMode := mode)) == NotClassic
  {
  }

  /** A classic game with ten puuids and ten positioned participants fills every slot from its participant. */
  lemma FullLobbyFillsEverySlot(doc: MatchDoc)
    requires doc.gameMode == CLASSIC && |doc.puuids| == SLOTS && |doc.participants| == SLOTS
    requires forall k :: 0 <= k < SLOTS ==> doc.participants[k].teamPosition.Some?
    ensures MatchRoles(doc).Parsed?
    ensures forall i :: 0 <= i < SLOTS ==>
      MatchRoles(doc).rows[i] == RoleRow(doc.puuids[i], doc.matchId, doc.participants[i].teamPosition, doc.participants[i].championName)
  {
    assert WellFormed(doc);
  }

  // ---------------------------------------------------------------------
  // get_roles: the retry loop

  /** A call of `get_roles`: what it returns (or that it raised), the requests sent and the seconds slept. */
  datatype RoleFetch<B> = RoleFetch(result: Call<Option<B>>, requests: nat, sleeps: seq<nat>)

  /**
   * `get_roles` from attempt `attempt` on, when request k is answered with
   * `server(k)`. Each request is followed by at most one sleep.
   */
  function RolesFrom<B>(server: nat -> Response<B>, maxRetries: nat, attempt: nat): (r: RoleFetch<B>)
    ensures attempt <= r.requests
    ensures |r.sleeps| <= r.requests - attempt
    decreases maxRetries - attempt
  {
    if attempt >= maxRetries then RoleFetch(Returned(None), attempt, [])
    else
      match server(attempt)
      case ConnectionError => RoleFetch(Raised, attempt + 1, [])
      case Reply(status, retryAfter, body) =>
        if status == OK then RoleFetch(Returned(Some(body)), attempt + 1, [])
        else if status == TOO_MANY_REQUESTS then
          var rest := RolesFrom(server, maxRetries, attempt + 1);
          rest.(sleeps := [RetrySleep(server(attempt))] + rest.sleeps)
        else RoleFetch(Returned(None), attempt + 1, [])
  }

  predicate RateLimited<B>(r: Response<B>) {
    r.Reply? && r.status == TOO_MANY_REQUESTS
  }

  /** The sleep after a 429: `Retry-After` + 1 seconds, `Retry-After` 2 when absent. */
  function RetrySleep<B>(r: Response<B>): nat
    requires r.Reply?
  {
    r.retryAfter.GetOr(2) + 1
  }

  /** The sleeps of the requests of attempts `from` up to `to`: one per 429, `Retry-After` + 1 seconds each. */
  function RateLimitSleeps<B>(server: nat -> Response<B>, from: nat, to: nat): seq<nat>
    decreases to - from
  {
    if from >= to then []
    else (if RateLimited(server(from)) then [RetrySleep(server(from))] else [])
         + RateLimitSleeps(server, from + 1, to)
  }

  /**
   * The promise of `get_roles` from attempt `start` on: at most
   * `maxRetries` requests; only 429s are retried; it raises exactly when the
   * last request failed to connect; it returns a payload exactly when the
   * last answer is a 200, and that answer's body; and it sleeps once per 429.
   */
  ghost predicate RolesContract<B>(server: nat -> Response<B>, maxRetries: nat, start: nat, o: RoleFetch<B>) {
    && start <= o.requests <= maxRetries
    && (forall k :: start <= k < o.requests - 1 ==> RateLimited(server(k)))
    && (o.requests < maxRetries ==> o.requests > start && !RateLimited(server(o.requests - 1)))
    && (o.result.Raised? <==> o.requests > start && server(o.requests - 1).ConnectionError?)
    && (o.result.Returned? && o.result.value.Some? <==> o.requests > start && IsOk(server(o.requests - 1)))
    && (o.result.Returned? && o.result.value.Some? ==> o.result.value.value == server(o.requests - 1).body)
    && o.sleeps == RateLimitSleeps(server, start, o.requests)
  }

  lemma {:induction false} RolesOutcome<B>(server: nat -> Response<B>, maxRetries: nat, attempt: nat)
    requires attempt <= maxRetries
    ensures RolesContract(server, maxRetries, attempt, RolesFrom(server, maxRetries, attempt))
    decreases maxRetries - attempt
  {
    if attempt < maxRetries && RateLimited(server(attempt)) {
      RolesOutcome(server, maxRetries, attempt + 1);
    }
  }

  /** `spec` is what remains, `rest`, after the sleeps `done` already happened. */
  ghost predicate Resumes<B>(spec: RoleFetch<B>, done: seq<nat>, rest: RoleFetch<B>) {
    spec == rest.(sleeps := done + rest.sleeps)
  }

  /** An answer that is not a 429 ends the call: it raises, returns the 200's body, or returns None. */
  lemma FinalStep<B>(server: nat -> Response<B>, maxRetries: nat, attempt: nat, done: seq<nat>, spec: RoleFetch<B>)
    requires attempt < maxRetries && !RateLimited(server(attempt))
    requires Resumes(spec, done, RolesFrom(server, maxRetries, attempt))
    ensures spec == RoleFetch(Final(server(attempt)), attempt + 1, done)
  {
  }

  lemma RateLimitStep<B>(server: nat -> Response<B>, maxRetries: nat, attempt: nat, done: seq<nat>, spec: RoleFetch<B>)
    requires attempt < maxRetries && RateLimited(server(attempt))
    requires Resumes(spec, done, RolesFrom(server, maxRetries, attempt))
    ensures Resumes(spec, done + [RetrySleep(server(attempt))], RolesFrom(server, maxRetries, attempt + 1))
  {
    var rest := RolesFrom(server, maxRetries, attempt + 1);
    var s := [RetrySleep(server(attempt))];
    assert done + (s + rest.sleeps) == (done + s) + rest.sleeps;
  }

  /**
   * `get_roles`: up to `maxRetries` requests; a 200 returns its body, a 429
   * sleeps `Retry-After` + 1 seconds (`Retry-After` 2 when absent), any other
   * status gives up at once, and a connection error is not caught.
   */
  method GetRoles<B>(server: nat -> Response<B>, maxRetries: nat) returns (result: Call<Option<B>>, requests: nat, sleeps: seq<nat>)
    ensures RoleFetch(result, requests, sleeps) == RolesFrom(server, maxRetries, 0)
  {
    ghost var spec := RolesFrom(server, maxRetries, 0);
    result, requests, sleeps := Returned(None), 0, [];
    var attempt := 0;
    while attempt < maxRetries
      invariant attempt <= maxRetries && requests == attempt
      invariant Resumes(spec, sleeps, RolesFrom(server, maxRetries, attempt))
    {
      var response := server(attempt);
      requests := requests + 1;
      var done, outcome, slept := Classify(response);
      if done {
        FinalStep(server, maxRetries, attempt, sleeps, spec);
        return outcome, requests, sleeps;
      }
      RateLimitStep(server, maxRetries, attempt, sleeps, spec);
      sleeps := sleeps + slept;
      attempt := attempt + 1;
    }
    result := Returned(None);
  }

  /** What an answer that is not a 429 makes the call end with. */
  function Final<B>(r: Response<B>): Call<Option<B>> {
    if r.ConnectionError? then Raised else if r.status == OK then Returned(Some(r.body)) else Returned(None)
  }

  /**
   * One pass of the loop of `get_roles` over its answer: a connection error
   * escapes, a 200 ends it with the body, a 429 sleeps `Retry-After` + 1
   * seconds and goes round again, and any other status ends it with None.
   */
  method Classify<B>(response: Response<B>) returns (done: bool, outcome: Call<Option<B>>, slept: seq<nat>)
    ensures done <==> !RateLimited(response)
    ensures done ==> outcome == Final(response)
    ensures !done ==> slept == [RetrySleep(response)]
  {
    if response.ConnectionError? {
      return true, Raised, [];
    } else if response.status == OK {
      return true, Returned(Some(response.body)), [];
    } else if response.status == TOO_MANY_REQUESTS {
      return false, Returned(None), [RetrySleep(response)];
    } else {
      return true, Returned(None), [];
    }
  }

  /** Unlike the timeline fetch, a connection error on the first request escapes at once. */
  lemma ConnectionErrorEscapes<B>(server: nat -> Response<B>, maxRetries: nat)
    requires maxRetries > 0 && server(0).ConnectionError?
    ensures RolesFrom(server, maxRetries, 0) == RoleFetch(Raised, 1, [])
  {
  }

  /** Three 429s in a row exhaust the default budget: no payload, three requests, three sleeps. */
  lemma RateLimitedThrice<B>(server: nat -> Response<B>)
    requires forall k: nat :: k < MAX_RETRIES ==> server(k).Reply? && server(k).status == TOO_MANY_REQUESTS && server(k).retryAfter == Some(5)
    ensures RolesFrom(server, MAX_RETRIES, 0) == RoleFetch(Returned(None), 3, [6, 6, 6])
  {
    assert RateLimited(server(0)) && RateLimited(server(1)) && RateLimited(server(2));
  }

  // ---------------------------------------------------------------------
  // The worker and the shared list and set

  /** The match oracle: the answer to the k-th request for a match id. */
  type MatchServer = string -> nat -> Response<MatchDoc>

  /** What one worker has merged so far, and whether an exception escaped it. */
  datatype RolesRun = RolesRun(roles: seq<RoleRow>, matches: set<string>, raised: bool)

  /** What the worker does with one match: merge it, leave it, or stop. */
  datatype Step = Merge(rows: seq<RoleRow>, matchId: string) | Skip | Stop

  /**
   * One match of `fetch_roles_for_routing`: an escaped connection error or a
   * refused document stops the worker; a payload whose parse has both rows
   * and a non-empty match id is merged; anything else is left.
   */
  function StepOf(fetched: Call<Option<MatchDoc>>): (s: Step)
    ensures s.Merge? ==> |s.rows| == SLOTS && s.matchId != ""
    ensures s.Stop? <==> fetched.Raised? || (fetched.value.Some? && MatchRoles(fetched.value.value).Malformed?)
    ensures s.Merge? <==> (fetched.Returned? && fetched.value.Some? &&
      MatchRoles(fetched.value.value).Parsed? && fetched.value.value.matchId != "")
    ensures s.Merge? ==> s.rows == MatchRoles(fetched.value.value).rows && s.matchId == fetched.value.value.matchId
    ensures fetched == Returned(None) ==> s.Skip?
    ensures fetched.Returned? && fetched.value.Some? && MatchRoles(fetched.value.value).NotClassic? ==> s.Skip?
  {
    match fetched
    case Raised => Stop
    case Returned(None) => Skip
    case Returned(Some(doc)) =>
      match MatchRoles(doc)
      case Malformed => Stop
      case NotClassic => Skip
      case Parsed(rows, matchId) => if rows != [] && matchId != "" then Merge(rows, matchId) else Skip
  }

  function StepFor(matchId: string, server: MatchServer): Step {
    StepOf(RolesFrom(server(matchId), MAX_RETRIES, 0).result)
  }

  /** One match's effect on the run; nothing happens after the worker stopped. */
  function Apply(run: RolesRun, step: Step): RolesRun {
    if run.raised then run
    else
      match step
      case Stop => run.(raised := true)
      case Skip => run
      case Merge(rows, id) => RolesRun(run.roles + rows, run.matches + {id}, false)
  }

  /** The worker over its queue, match after match. */
  function CollectRoles(matchIds: seq<string>, server: MatchServer): (run: RolesRun)
    ensures |run.roles| >= 10 * |run.matches|
    ensures |run.roles| % 10 == 0
  {
    if matchIds == [] then RolesRun([], {}, false)
    else Apply(CollectRoles(matchIds[..|matchIds| - 1], server), StepFor(matchIds[|matchIds| - 1], server))
  }

  lemma CollectRolesStep(matchIds: seq<string>, i: nat, server: MatchServer)
    requires i < |matchIds|
    ensures CollectRoles(matchIds[..i + 1], server) == Apply(CollectRoles(matchIds[..i], server), StepFor(matchIds[i], server))
  {
    assert matchIds[..i + 1][..i] == matchIds[..i];
  }

  /**
   * The shared role list and match-id set, guarded by one lock: each merge
   * appends the rows and adds the id together.
   */
  class RolesStore {
    var roles: seq<RoleRow>
    var matches: set<string>

    constructor()
      ensures roles == [] && matches == {}
    {
      roles, matches := [], {};
    }

    method Merge(rows: seq<RoleRow>, matchId: string)
      modifies this
      ensures roles == old(roles) + rows && matches == old(matches) + {matchId}
    {
      roles := roles + rows;
      matches := matches + {matchId};
    }
  }

  /** One match of the worker: fetch and parse it, and decide what to do with it. */
  method RolesStep(matchId: string, server: MatchServer) returns (s: Step)
    ensures s == StepFor(matchId, server)
  {
    var fetched, requests, sleeps := GetRoles(server(matchId), MAX_RETRIES);
    if fetched.Raised? {
      return Stop;
    }
    if fetched.value.None? {
      return Skip;
    }
    var parsed := ParseMatchRoles(fetched.value.value);
    if parsed.Malformed? {
      s := Stop;
    } else if parsed.Parsed? && parsed.rows != [] && parsed.matchId != "" {
      s := Merge(parsed.rows, parsed.matchId);
    } else {
      s := Skip;
    }
  }

  /**
   * `fetch_roles_for_routing`: for each match of the domain's queue, fetch
   * and parse it and merge it under the lock when it gave both rows and a
   * match id; an exception stops the worker (`raised`), leaving what was
   * merged before it.
   */
  method FetchRolesForRouting(matchIds: seq<string>, server: MatchServer, store: RolesStore) returns (raised: bool)
    modifies store
    ensures var run := CollectRoles(matchIds, server);
      && store.roles == old(store.roles) + run.roles
      && store.matches == old(store.matches) + run.matches
      && raised == run.raised
  {
    ghost var startRoles, startMatches := store.roles, store.matches;
    var i := 0;
    raised := false;
    while i < |matchIds| && !raised
      invariant 0 <= i <= |matchIds|
      invariant var run := CollectRoles(matchIds[..i], server);
        && store.roles == startRoles + run.roles
        && store.matches == startMatches + run.matches
        && raised == run.raised
    {
      var s := RolesStep(matchIds[i], server);
      CollectRolesStep(matchIds, i, server);
      raised := Take(s, store, startRoles, startMatches, CollectRoles(matchIds[..i], server));
      i := i + 1;
    }
    if raised {
      RaisedStays(matchIds, i, server);
    }
    assert matchIds[..|matchIds|] == matchIds;
  }

  /**
   * What the worker does with one match's step, under the lock: merge it,
   * leave it, or stop. The store, which held `run` on top of its start,
   * then holds the run one step further.
   */
  method Take(s: Step, store: RolesStore, ghost startRoles: seq<RoleRow>, ghost startMatches: set<string>, ghost run: RolesRun)
    returns (raised: bool)
    requires !run.raised
    requires store.roles == startRoles + run.roles && store.matches == startMatches + run.matches
    modifies store
    ensures var next := Apply(run, s);
      && store.roles == startRoles + next.roles
      && store.matches == startMatches + next.matches
      && raised == next.raised
  {
    raised := false;
    if s.Stop? {
      raised := true;
    } else if s.Merge? {
      store.Merge(s.rows, s.matchId);
      AppendAssoc(startRoles, run.roles, s.rows);
    }
  }

  /** Once the worker stopped, the rest of its queue changes nothing. */
  lemma {:induction false} RaisedStays(matchIds: seq<string>, i: nat, server: MatchServer)
    requires i <= |matchIds| && CollectRoles(matchIds[..i], server).raised
    ensures CollectRoles(matchIds, server) == CollectRoles(matchIds[..i], server)
    decreases |matchIds| - i
  {
    if i < |matchIds| {
      CollectRolesStep(matchIds, i, server);
      RaisedStays(matchIds, i + 1, server);
    } else {
      assert matchIds[..i] == matchIds;
    }
  }

  /**
   * A worker that did not stop has merged only ids of its own queue: an id
   * in the set was merged by some match of the queue.
   */
  lemma {:induction false} MergedMatches(matchIds: seq<string>, server: MatchServer, id: string)
    requires !CollectRoles(matchIds, server).raised
    requires id in CollectRoles(matchIds, server).matches
    ensures exists i :: 0 <= i < |matchIds| && StepFor(matchIds[i], server).Merge? && StepFor(matchIds[i], server).matchId == id
  {
    var init, last := matchIds[..|matchIds| - 1], matchIds[|matchIds| - 1];
    var prev := CollectRoles(init, server);
    var step := StepFor(last, server);
    assert !prev.raised && CollectRoles(matchIds, server).matches == prev.matches + (if step.Merge? then {step.matchId} else {}) by {
      assert CollectRoles(matchIds, server) == Apply(prev, step);
    }
    if id in prev.matches {
      MergedMatches(init, server, id);
      var i :| 0 <= i < |init| && StepFor(init[i], server).Merge? && StepFor(init[i], server).matchId == id;
      assert matchIds[i] == init[i];
    } else {
      assert matchIds[|matchIds| - 1] == last;
    }
  }

  /** A worker that did not stop has the id of every match of its queue that it merged. */
  lemma {:induction false} MergedMatchesKept(matchIds: seq<string>, server: MatchServer, i: nat)
    requires !CollectRoles(matchIds, server).raised
    requires i < |matchIds| && StepFor(matchIds[i], server).Merge?
    ensures StepFor(matchIds[i], server).matchId in CollectRoles(matchIds, server).matches
  {
    var init, last := matchIds[..|matchIds| - 1], matchIds[|matchIds| - 1];
    var prev := CollectRoles(init, server);
    var step := StepFor(last, server);
    assert !prev.raised && CollectRoles(matchIds, server).matches == prev.matches + (if step.Merge? then {step.matchId} else {}) by {
      assert CollectRoles(matchIds, server) == Apply(prev, step);
    }
    if i < |init| {
      assert init[i] == matchIds[i];
      MergedMatchesKept(init, server, i);
    }
  }

  /** The same classic match queued twice: its id is in the set once, its ten rows are in the list twice. */
  lemma SameMatchTwice(m: string, server: MatchServer)
    requires StepFor(m, server).Merge?
    ensures var step := StepFor(m, server);
      CollectRoles([m, m], server) == RolesRun(step.rows + step.rows, {step.matchId}, false)
    ensures |CollectRoles([m, m], server).roles| == 2 * SLOTS
  {
    assert [m, m][..1] == [m];
    assert [m][..0] == [];
    var step := StepFor(m, server);
    assert CollectRoles([m], server) == RolesRun(step.rows, {step.matchId}, false);
  }

  /** A match that is neither merged nor stopping (no payload, or not a classic game) leaves the run as it was. */
  lemma SkippedMatchChangesNothing(matchIds: seq<string>, m: string, server: MatchServer)
    requires StepFor(m, server).Skip?
    ensures CollectRoles(matchIds + [m], server) == CollectRoles(matchIds, server)
  {
    assert (matchIds + [m])[..|matchIds|] == matchIds;
  }

  /** The rows a step adds to the list: a merged match's rows, nothing otherwise. */
  function MergedRowsOf(s: Step): seq<RoleRow> {
    if s.Merge? then s.rows else []
  }

  /** The rows of a queue read front to back: each merged match's parsed rows, in queue order. */
  function MergedRows(matchIds: seq<string>, server: MatchServer): seq<RoleRow> {
    if matchIds == [] then [] else MergedRowsOf(StepFor(matchIds[0], server)) + MergedRows(matchIds[1..], server)
  }

  lemma {:induction false} MergedRowsSnoc(matchIds: seq<string>, m: string, server: MatchServer)
    ensures MergedRows(matchIds + [m], server) == MergedRows(matchIds, server) + MergedRowsOf(StepFor(m, server))
  {
    if matchIds != [] {
      assert (matchIds + [m])[1..] == matchIds[1..] + [m];
      MergedRowsSnoc(matchIds[1..], m, server);
      AppendAssoc(MergedRowsOf(StepFor(matchIds[0], server)), MergedRows(matchIds[1..], server), MergedRowsOf(StepFor(m, server)));
    } else {
      assert [m][1..] == [];
    }
  }

  /**
   * A worker that did not stop has appended exactly the parsed rows of the
   * classic matches of its queue that have a match id, in queue order.
   */
  lemma {:induction false} CollectRolesRows(matchIds: seq<string>, server: MatchServer)
    ensures !CollectRoles(matchIds, server).raised ==> CollectRoles(matchIds, server).roles == MergedRows(matchIds, server)
  {
    if matchIds != [] {
      var init, last := matchIds[..|matchIds| - 1], matchIds[|matchIds| - 1];
      CollectRolesRows(init, server);
      assert matchIds == init + [last];
      MergedRowsSnoc(init, last, server);
    }
  }
}
