# Rate-limited match-history fetch pipeline, modelled in Dafny

This project models the fetch pipeline of a League of Legends data
collector. The pipeline has four scripts:

- `fetch_players.py` builds a player index from the ranked ladders.
- `fetch_matches.py` collects each player's recent match ids.
- `fetch_roles.py` reads the lane role and champion of every player of every classic match. It also keeps the set of match ids that gave roles.
- `fetch_trajectories.py` reads every player's positions, frame by frame, from the match timelines.

All three match-API scripts split their work by *routing domain* (europe,
americas, asia, sea). They give each domain's queue to its own worker,
retry failed requests, and merge the workers' results into one shared
list or set.

The model has one Dafny module per concern:

| module | file | models |
|---|---|---|
| `Wrappers` | `wrappers.dfy` | `Option`, `Result`, dictionary lookup |
| `Text` | `text.dfy` | `str.lower`, `str.upper`, `str.split(sep)[0]` (ASCII) |
| `Http` | `http.dfy` | an abstract response (status, `Retry-After`, body) or a connection error; the status constants |
| `Routing` | `routing.dfy` | `MATCH_ROUTING`, the routing of match ids and regions, the `groupby` split into queues |
| `RateLimit` | `rate_limit.dfy` | `riot_get`, the fixed-interval per-domain limiter, as a class over an integer clock |
| `Trajectories` | `trajectories.dfy` | `get_trajectories`, `parse_match_timeline`, the trajectory worker |
| `Roles` | `roles.dfy` | `get_roles`, `parse_match_roles`, the role worker |
| `Matches` | `matches.dfy` | `get_match_ids`, the match-id worker |
| `Players` | `players.dfy` | `get_ranked_data`, `parse_data`, `deduplicate_player_data`, the rank tables |

How the model represents the source:

- **Requests.** Each retry loop is a method that reads an oracle `server: nat -> Response`. The k-th request gets `server(k)`. The method returns what the Python function returns, plus the number of requests sent and the seconds slept, in order. A recursive function (`TrajectoriesFrom`, `RolesFrom`, `MatchIdsFrom`) specifies each loop. A contract predicate then states what the loop promises, and a lemma proves that promise for every oracle.
- **Parsers.** Both parsers fill a ten-slot table in place, so they are methods with loops. Each is proved equal to a specification function (`TimelineRows`, `MatchRoles`), and lemmas state the slot alignment, frame order and team rules.
- **Workers.** A worker and the lock-guarded shared collection it updates become a class with `modifies` methods (`TrajectoryStore`, `RolesStore`, `MatchIdStore`). Each worker method is proved to leave the store as the old store plus a fold (`Collected`, `CollectRoles`, `CollectIds`) over its queue. The properties of the merge are lemmas about that fold.
- **Limiter.** `riot_get` is `RateLimit.Limiter.RiotGet`. The class has an integer clock in milliseconds and one last-call time per domain. A ghost log of grants carries the spacing invariant.

Behaviour of the code that the model keeps:

- **Connection errors escape.** `get_roles` and `get_match_ids` do not catch request exceptions, so a connection error ends the worker. `fetch_roles.py`'s `main` re-raises it from `future.result()`. `fetch_matches.py` never reads its futures, so the rest of that domain's queue is silently skipped. The model returns `Raised` and stops the worker fold.
- **Backoff on server errors.** Only `get_match_ids` backs off exponentially, for statuses of 416 and above other than 429. `get_trajectories` and `get_roles` give up at once on any status other than 200 and 429. `get_trajectories` waits `2 + attempt` seconds after a connection error.
- **Default `Retry-After`.** It is 2 in `get_trajectories` and `get_roles` and 1 in `get_match_ids`.
- **Positions.** A position is added only for frames whose participant entry has one, so a participant can have fewer positions than there are frames.
- **Game mode.** The timeline parser does not check the game mode. Only `parse_match_roles` does.
- **Unrouted ids.** A match id whose prefix is not one of the eight platform codes has no routing. `groupby` drops it.
- **Failed requests.** When `session.get` raises inside `riot_get`, the domain's last-call time is not updated, so the next request to that domain is spaced only from the last request that returned.

## Model

| member | source | states |
|---|---|---|
| `Text.UpperOfLower` | src/fetch_players.py:29-47 | upper-casing undoes an earlier lower-casing, so a rank accepted as `rank.lower()` is keyed as `rank.upper()` |
| `Text.SplitHead` | src/fetch_trajectories.py:123-129 | `split("_")[0]` is a prefix of the id that holds no separator and is followed by the separator or the end |
| `Text.SplitHeadOfJoin` | src/fetch_trajectories.py:123-129 | the head of `code + "_" + rest` is `code` whenever `code` has no underscore |
| `Routing.MatchRoutingShape` | src/fetch_trajectories.py:14-23 | `MATCH_ROUTING` is defined on exactly the eight platform codes and maps them onto all four domains |
| `Routing.MatchIdRouting` | src/fetch_trajectories.py:123-129 | a match id has a routing exactly when its lower-cased prefix before the first `_` is one of the eight platform codes; an id without `_` is looked up whole |
| `Routing.RegionRouting` | src/fetch_matches.py:89 | a region has a routing exactly when it is one of the eight platform codes, and it is that code's domain |
| `Routing.MatchIdRoutingOfPrefix` | src/fetch_trajectories.py:123-129 | a match id is routed by its lower-cased platform prefix alone; an unknown prefix has no routing |
| `Routing.Queue` | src/fetch_trajectories.py:134-144 | a domain's queue holds exactly the input items routed to that domain |
| `Routing.QueuesPartition` | src/fetch_trajectories.py:134-144 | the four queues together hold every routed item exactly as often as the input, and no unrouted item |
| `Routing.ExactlyOneQueue` | src/fetch_roles.py:132-143 | an item is in the queue of its own domain and in no other |
| `Routing.QueueDistinct` | src/fetch_roles.py:132-143 | a queue taken from an input without repeats has no repeats |
| `RateLimit.Wait` | src/fetch_trajectories.py:28-30 | the sleep is zero exactly when the interval has passed; otherwise it is exactly the rest of the interval |
| `RateLimit.Limiter.constructor` | src/fetch_trajectories.py:9-11 | the limiter starts with no last call for any domain and an empty log |
| `RateLimit.Limiter.Elapse` | src/fetch_trajectories.py:28 | the clock advances outside `riot_get` and the limiter state is unchanged |
| `RateLimit.Limiter.RiotGet` | src/fetch_trajectories.py:26-35 | it sleeps exactly `Wait`, never on a domain's first call; the request goes out at least one interval after the domain's last recorded call; a returned request's end time becomes that domain's last call, a raised one leaves it unchanged, and no other domain changes; every grant stays one interval after each earlier returned grant to its domain |
| `RateLimit.BackToBack` | src/fetch_roles.py:28-37 | two consecutive calls to one domain are sent at least one interval plus the first call's latency apart |
| `RateLimit.DomainsIndependent` | src/fetch_roles.py:28-37 | a call to another domain right after a Europe call does not sleep |
| `RateLimit.FailedCallNotSpaced` | src/fetch_roles.py:28-37 | after a returned call and a raised one, the next call goes out as soon as the raised request ends: it is not spaced from the raised request |
| `RateLimit.RetryAfterFailureSpaced` | src/fetch_trajectories.py:26-46 | the `2 + attempt` second sleep after a connection error puts the retry more than one interval after the failed request |
| `Trajectories.TimelineRows` | src/fetch_trajectories.py:64-97 | fewer than ten puuids or a positioned participant outside 1..10 is an error; otherwise there are ten rows, row i has puuid i and the match id, its positions come from its frames in order, and its team is decided by the first frame |
| `Trajectories.ParseMatchTimeline` | src/fetch_trajectories.py:64-97 | the table-filling loop over frames computes `TimelineRows` |
| `Trajectories.RecordFrame` | src/fetch_trajectories.py:79-95 | one frame in any key order: stops exactly when the frame has a positioned participant outside 1..10; otherwise each slot's row now covers this frame |
| `Trajectories.Positions` | src/fetch_trajectories.py:79-89 | a participant's trajectory is empty exactly when no frame reports a position for it |
| `Trajectories.PositionsFromFrames` | src/fetch_trajectories.py:79-89 | a participant has at most one position per frame, each one taken from a frame that reports it |
| `Trajectories.PositionsOnePerFrame` | src/fetch_trajectories.py:79-89 | when every frame reports a position for the participant, there is one per frame and position j is frame j's |
| `Trajectories.TeamOf` | src/fetch_trajectories.py:91-95 | a participant has a team only when the first frame reports a position for it |
| `Trajectories.TeamFixedByFirstFrame` | src/fetch_trajectories.py:91-95 | later frames never change a team: the team of a timeline is the team of its first frame |
| `Trajectories.TeamsFromSpawnCorners` | src/fetch_trajectories.py:91-95 | the first frame puts participant 3 at (500,500) and 8 at (14000,14000), and a later frame moves 3 to (14000,14000): 3 is team 0, 8 is team 1, and 3 has both positions |
| `Trajectories.ParticipantElevenRefused` | src/fetch_trajectories.py:87-89 | a positioned participant 11 in any frame makes the parse an error instead of a write outside the table |
| `Trajectories.TrajectoriesFrom` | src/fetch_trajectories.py:37-61 | the retry loop from a given attempt on: it never counts fewer requests than the attempts already made, and sleeps at most once per request |
| `Trajectories.TrajectoriesOutcome` | src/fetch_trajectories.py:37-61 | at most `max_retries` requests; only 429s and connection errors are retried; a payload comes back exactly when the last answer was a 200, and it is that answer's body; the sleeps are one per retried answer, in order |
| `Trajectories.GetTrajectories` | src/fetch_trajectories.py:37-61 | the retry loop computes `TrajectoriesFrom` |
| `Trajectories.Classify` | src/fetch_trajectories.py:41-58 | one answer ends the loop exactly when it is neither a connection error nor a 429, with the body after a 200 and None otherwise; a retried answer yields its sleep |
| `Trajectories.RateLimitedOnceThenServed` | src/fetch_trajectories.py:51-54 | a 429 without `Retry-After` and then a 200 give the payload after two requests and one 3-second sleep |
| `Trajectories.ServerErrorIsFinal` | src/fetch_trajectories.py:56-58 | a 5xx ends the call after one request, with no sleep and no payload |
| `Trajectories.Contribution` | src/fetch_trajectories.py:114-117 | a missing payload contributes nothing; a timeline that parses contributes exactly its parsed rows, ten of them, all of its own match; a refused one contributes nothing |
| `Trajectories.CollectedConcat` | src/fetch_trajectories.py:100-117 | the rows of a queue are the rows of its parts, in order |
| `Trajectories.CollectedIsParsedRows` | src/fetch_trajectories.py:100-117 | what a worker appends equals its queue read front to back: the parsed rows of each fetched timeline that parses, in queue order |
| `Trajectories.TrajectoryStore.constructor` | src/fetch_trajectories.py:131 | the shared list starts empty |
| `Trajectories.TrajectoryStore.Extend` | src/fetch_trajectories.py:116-117 | an extend appends the batch and nothing else |
| `Trajectories.Collected` | src/fetch_trajectories.py:100-117 | what a worker appends for its queue is a whole number of ten-row matches, at most ten rows per queued id |
| `Trajectories.FetchTrajectoriesForRouting` | src/fetch_trajectories.py:100-117 | the worker leaves the shared list as the old list plus its queue's rows, match after match |
| `Trajectories.FetchMatch` | src/fetch_trajectories.py:108-117 | one match gives `Contribution` of its fetched timeline: the parsed rows when it parses, nothing otherwise |
| `Trajectories.CollectedAsWritten` | src/fetch_trajectories.py:100-117 | the worker as written appends at most ten rows per match and raises at the first refused timeline |
| `Trajectories.AsWrittenFinishesWithoutRefusal` | src/fetch_trajectories.py:100-117 | as written, the worker finishes exactly when no timeline of its queue is refused |
| `Trajectories.AsWrittenCrashesOnRefusal` | src/fetch_trajectories.py:108-117 | as written, a refused timeline anywhere in the queue makes the worker raise |
| `Trajectories.AsWrittenCrashesOnlyOnRefusal` | src/fetch_trajectories.py:108-117 | as written, the worker raises only at a refused timeline |
| `Trajectories.AsWrittenAgreesWithoutRefusal` | src/fetch_trajectories.py:100-117 | a worker that finishes as written has appended exactly what the corrected worker appends |
| `Trajectories.EleventhParticipantLosesTheQueue` | src/fetch_trajectories.py:87-89 | a queue whose first timeline has a positioned participant 11: as written the worker raises with nothing kept; corrected, the second match's ten rows are kept |
| `Trajectories.RefusedMatchAddsNothing` | src/fetch_trajectories.py:114-117 | corrected, a refused timeline adds nothing and the matches around it are kept |
| `Roles.MatchRoles` | src/fetch_roles.py:61-91 | a game mode other than `CLASSIC` gives `(None, None)`; a classic game with fewer than ten puuids or a positioned participant past slot ten is refused; otherwise ten rows and the match id |
| `Roles.RoleRowsAligned` | src/fetch_roles.py:69-86 | row i has puuid i and the match id; it has a role exactly when participant i+1 has a `teamPosition`, and then that role and that participant's champion; a row without a role has no champion |
| `Roles.ParseMatchRoles` | src/fetch_roles.py:61-91 | the table-filling method computes `MatchRoles` |
| `Roles.ReadParticipants` | src/fetch_roles.py:79-86 | the loop over participants stops exactly when a participant past slot ten has a `teamPosition`; otherwise every slot has its participant's role and champion |
| `Roles.OnlyClassicGamesGiveRows` | src/fetch_roles.py:65-91 | any other game mode gives nothing, whatever else the document holds |
| `Roles.FullLobbyFillsEverySlot` | src/fetch_roles.py:69-88 | ten puuids and ten positioned participants give ten rows that pair slot i with participant i |
| `Roles.RolesFrom` | src/fetch_roles.py:39-58 | the retry loop from a given attempt on: it never counts fewer requests than the attempts already made, and sleeps at most once per request |
| `Roles.RolesOutcome` | src/fetch_roles.py:39-58 | at most `max_retries` requests; only 429s are retried; it raises exactly when the last request failed to connect; a payload comes back exactly when the last answer was a 200; one sleep per 429 |
| `Roles.GetRoles` | src/fetch_roles.py:39-58 | the retry loop computes `RolesFrom` |
| `Roles.Classify` | src/fetch_roles.py:43-55 | one answer ends the loop exactly when it is not a 429: it raises on a connection error, returns the body after a 200, and None otherwise; a 429 yields its `Retry-After` + 1 second sleep |
| `Roles.ConnectionErrorEscapes` | src/fetch_roles.py:42-43 | a connection error on the first request raises after one request and no sleep |
| `Roles.RateLimitedThrice` | src/fetch_roles.py:48-57 | three 429s with `Retry-After: 5` exhaust the attempts: no payload, three requests, three 6-second sleeps |
| `Roles.StepOf` | src/fetch_roles.py:108-113 | a match is merged exactly when its document was fetched, is a classic game that parses, and has a non-empty match id; the merge carries the parsed ten rows and the document's match id; no payload or a non-classic game is skipped; the worker stops exactly on an escaped error or a refused document |
| `Roles.CollectRoles` | src/fetch_roles.py:94-113 | the role list has at least ten rows per merged match id, always a multiple of ten |
| `Roles.RolesStore.constructor` | src/fetch_roles.py:128-129 | the shared list and set start empty |
| `Roles.RolesStore.Merge` | src/fetch_roles.py:110-113 | a merge appends the rows and adds the id, under one lock |
| `Roles.RolesStep` | src/fetch_roles.py:102-113 | one match: fetch, parse, and decide to merge, skip or stop |
| `Roles.Take` | src/fetch_roles.py:110-113 | under the lock, one step extends the list and adds the id together, or changes nothing, or stops the worker; the store then holds the run one match further |
| `Roles.FetchRolesForRouting` | src/fetch_roles.py:94-113 | the worker leaves the shared list and set as the old ones plus its queue's merges, and reports whether it raised |
| `Roles.MergedMatches` | src/fetch_roles.py:108-113 | if the worker did not raise, every id in the set was merged by some match of its queue |
| `Roles.MergedMatchesKept` | src/fetch_roles.py:108-113 | if the worker did not raise, the id of every merged match of its queue is in the set |
| `Roles.SkippedMatchChangesNothing` | src/fetch_roles.py:108-113 | a match without payload or not a classic game leaves the list, the set and the raise flag as they were |
| `Roles.MergedRowsSnoc` | src/fetch_roles.py:97-113 | reading the queue front to back and appending one more match adds that match's merged rows at the end |
| `Roles.CollectRolesRows` | src/fetch_roles.py:97-113 | a worker that did not stop has appended exactly the parsed rows of its merged matches, in queue order |
| `Roles.SameMatchTwice` | src/fetch_roles.py:111-113 | the same classic match queued twice leaves its id in the set once and its ten rows in the list twice |
| `Matches.MatchIdsFrom` | src/fetch_matches.py:36-61 | the retry loop from a given attempt on: it never counts fewer requests than the attempts already made, and sleeps at most once per request |
| `Matches.MatchIdsOutcome` | src/fetch_matches.py:36-61 | at most `max_retries` requests; only 429s and statuses of 416 and above are retried; it raises exactly when the last request failed to connect; a non-empty result is the body of a final 200; the sleeps are the backoffs of the retried answers, in order |
| `Matches.GetMatchIds` | src/fetch_matches.py:36-61 | the retry loop computes `MatchIdsFrom` |
| `Matches.Classify` | src/fetch_matches.py:41-58 | one answer ends the loop exactly when it is neither a 429 nor a status of 416 or more; otherwise it yields that answer's backoff |
| `Matches.ServerErrorsBackOff` | src/fetch_matches.py:55-58 | three 503s give `[]` after three requests and sleeps of 1 and 2 seconds, none after the last attempt |
| `Matches.ClientErrorIsFinal` | src/fetch_matches.py:51-54 | a status below 416 other than 200 and 429 gives `[]` after one request, with no sleep |
| `Matches.RateLimitedThenServed` | src/fetch_matches.py:45-50 | a 429 without `Retry-After` and then a 200 give the ids after one 2-second sleep |
| `Matches.MatchIdStore.constructor` | src/fetch_matches.py:91 | the shared set starts empty |
| `Matches.MatchIdStore.Update` | src/fetch_matches.py:81-83 | `update` adds the batch's ids to the set |
| `Matches.CollectIds` | src/fetch_matches.py:63-83 | the fold over a domain's players; a run that did not stop met no raising call |
| `Matches.FetchMatchIdsForRouting` | src/fetch_matches.py:63-83 | the worker leaves the set as the old set plus its queue's ids, and reports whether it raised |
| `Matches.FetchPlayer` | src/fetch_matches.py:73-83 | one player: the worker stops exactly when the call raised; otherwise the set gains exactly the ids the call returned |
| `Matches.CollectedIds` | src/fetch_matches.py:81-83 | the worker raises exactly when some player's call raises; if none does, an id is in the set exactly when some player's call returned it |
| `Matches.OrderIrrelevant` | src/fetch_matches.py:81-83 | two orders of the same players agree on whether the worker raised, and, when no call raises, collect the same set |
| `Matches.AllRoutings` | src/fetch_matches.py:89-102 | if no worker raised, the union of the four sets is exactly the ids returned for the players whose region is routed |
| `Players.RegionsAreRoutable` | src/fetch_players.py:6 | `REGIONS` are exactly the eight platform codes of the match routing |
| `Players.RankPriorityInjective` | src/fetch_players.py:10-19 | `RANK_PRIORITY` maps the eight tiers into 0..7, from CHALLENGER (7) to SILVER (0), with no two tiers alike |
| `Players.AllPages` | src/fetch_players.py:48-65 | the divisions' listings together exist exactly when every division's answer is a 200 |
| `Players.AllPagesHoldsEveryPage` | src/fetch_players.py:48-65 | every entry of every division's listing is in the accumulated result |
| `Players.RankedAsWritten` | src/fetch_players.py:22-65 | as written, an unknown region raises; an apex tier gives the 200's entries, or None on any other answer; only an apex tier gives flat entries; a divided tier gives the wrapped shape exactly when every division answers 200 (None otherwise), and it wraps only the last division's entries |
| `Players.Ranked` | src/fetch_players.py:22-65 | an unknown region raises; entries come back exactly for an accepted region with an apex tier whose answer is a 200, or a divided tier whose answers are all 200s; an apex tier's entries are the 200's body and a divided tier's are every division's listing concatenated in visiting order; the wrapped shape never occurs |
| `Players.GetRankedData` | src/fetch_players.py:22-65 | the region check, the tier choice and the division loop compute `Ranked` |
| `Players.LowEloKeepsLastDivision` | src/fetch_players.py:48-65 | with every listing answered, as written a divided tier gives only the last division wrapped in a list, while corrected it gives all divisions |
| `Players.LowEloLosesThreeDivisions` | src/fetch_players.py:48-65 | gold on euw1, visiting IV, III, II, I with one entry each: as written, the wrapped page of I's entry; corrected, all four entries |
| `Players.AcceptedRanksHavePriority` | src/fetch_players.py:29-47 | a rank either tier accepts is, upper-cased, a key of `RANK_PRIORITY` |
| `Players.ParseData` | src/fetch_players.py:67-75 | one record per entry, in order, with the entry's puuid, the given region and the upper-cased rank |
| `Players.Insert` | src/fetch_players.py:85-86 | inserting into a list sorted by decreasing priority keeps it sorted and adds exactly that record |
| `Players.SortByPriority` | src/fetch_players.py:85-86 | the sort is a permutation sorted by decreasing `rank_priority` |
| `Players.KeepFirst` | src/fetch_players.py:87 | `drop_duplicates(keep="first")` keeps no puuid already seen and no puuid twice, and exactly the input's puuids that were not already seen |
| `Players.KeptFrom` | src/fetch_players.py:87 | every kept row is an input row, the first of its puuid in the input |
| `Players.KeepFirstKeepsHighest` | src/fetch_players.py:85-87 | on a sorted list, no row of a kept puuid ranks higher than the kept row |
| `Players.Deduplicate` | src/fetch_players.py:77-94 | an empty input raises (`KeyError` on the missing `rank` column); any other input gives a non-empty index |
| `Players.DeduplicateCoversPuuids` | src/fetch_players.py:77-94 | for a non-empty input, the player index has no puuid twice and exactly the puuids of the input |
| `Players.DeduplicateKeepsHighest` | src/fetch_players.py:83-89 | every index row is an input row of the highest `RANK_PRIORITY` among its puuid's rows |

## Left out

- HTTP, sessions, URLs, the API key and `response.json()` are not modelled. A response is an abstract status, an optional `Retry-After` in whole seconds, and a decoded body, or a connection error.
- Malformed JSON is not modelled: missing keys in a 200 body, and a missing `message` in an error body (`get_match_ids`, `get_ranked_data`). Those raise `KeyError` in the source.
- `Retry-After` values that are negative or not integers are not modelled. They are `nat` here; in the source they raise or shorten the sleep.
- Threads, `ThreadPoolExecutor` and the locks are not modelled. Each worker is a sequential fold over its queue. The shared store is a class whose methods are atomic, as the single lock makes them. Interleavings between domains are not modelled.
- The workers do not thread a `RateLimit.Limiter` through their requests. The limiter's spacing is proved on its own, and the retry loops record their sleeps as a trace instead of advancing a clock.
- The limiter uses whole milliseconds where the source uses `time.time()` floats. The clock is assumed to start at least one interval after the epoch, which is why the first call of a domain never sleeps.
- The `ratelimit` decorators `@limits(calls=100, period=120)` and `@sleep_and_retry` on `fetch_matches.py`'s requests are left out. The library is not part of this model. `get_match_ids` takes its requests' answers from the oracle.
- `if timeline:` treats an empty JSON object as no payload. The model takes every 200 body as a document.
- `Trajectories.Contribution`: a refused timeline contributes nothing, where the source raises at src/fetch_trajectories.py:71 (too few puuids) and :89 (a participant outside 1..10). This is the corrected behaviour of the first finding; the raising behaviour is `Trajectories.CollectedAsWritten`.
- `Trajectories.FetchMatch`: for the same reason, a refused timeline gives no rows instead of raising out of the worker (src/fetch_trajectories.py:108-117). The raising behaviour is `Trajectories.CollectedAsWritten`.
- `Trajectories.FetchTrajectoriesForRouting`: models the corrected worker, which skips a refused timeline. The source as written raises; that behaviour is `Trajectories.CollectedAsWritten` (see Findings).
- `Roles.FetchRolesForRouting`: a refused match document (fewer than ten puuids, or a participant past slot ten with a role) stops the worker, as the source's `IndexError`/`KeyError` would. No separate finding is made, because classic games have exactly ten participants.
- `main` of `fetch_players.py` is not modelled: the loops over the command-line regions and ranks, and calling `parse_data` on a `None` result (a `TypeError`).
- Output writing is not modelled: parquet and csv, and the pandas category dtypes.
- `Players.Deduplicate`: uses one stable insertion sort. pandas' default sort is not stable, so which of two rows with equal priority survives is not specified. The lemmas state only what holds for every tie-break.
- A rank missing from `RANK_PRIORITY` maps to NaN in pandas, which sorts last. The model gives it priority -1, below every tier.
- `Players.GetRankedData`: the iteration order of the `DIVISIONS` set is a parameter, any enumeration of the four divisions.
- `raise "What the helly!"` raises a `TypeError` in Python 3. The model calls it `RegionRefused`.
- Case conversion and splitting are ASCII-only. Unicode case mapping is not modelled.
- Progress `print`s and logging are left out.
- The `count=10` query parameter of `get_match_ids` is part of the URL, which is not modelled: a player's ids are whatever the oracle returns.

## Findings

| source | as written | input that shows it | evidently intended | confidence | as-written member | corrected member |
|---|---|---|---|---|---|---|
| src/fetch_trajectories.py:87-89 | a positioned participant id outside 1..10 is logged and then written to `players[pid]`, which raises `KeyError`; the worker dies and `main` re-raises it, so nothing is saved | a domain queue whose first timeline has participant 11 with a position in some frame, followed by a normal match | refuse that timeline and keep the other matches | medium, not executed | `Trajectories.EleventhParticipantLosesTheQueue` | `Trajectories.RefusedMatchAddsNothing` |
| src/fetch_players.py:48-65 | `players = []` is inside the division loop and the entries are appended as one element, so a divided tier returns only the last division's entries wrapped in a list, which `parse_data` cannot read | rank `gold` on `euw1` with every division answering 200 with one entry | return the entries of all four divisions in one flat list | high, not executed | `Players.LowEloLosesThreeDivisions` | `Players.GetRankedData` |
