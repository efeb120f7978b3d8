/**
 * The timeline fetcher: `get_trajectories` (a retry loop that also survives
 * connection errors), `parse_match_timeline` (one timeline document to a
 * fixed table of ten trajectory rows) and the per-domain worker that
 * appends every parsed match's rows to the shared list.
 */
module Trajectories {
  import opened Wrappers
  import opened Http

  // ---------------------------------------------------------------------
  // The timeline document and the rows made from it

  datatype Position = Position(x: int, y: int)

  /** One entry of a frame's `participantFrames`; only its `position` matters here. */
  datatype ParticipantFrame = ParticipantFrame(position: Option<Position>)

  /** A timeline frame: `participantFrames`, keyed by participant id. */
  datatype Frame = Frame(participantFrames: map<int, ParticipantFrame>)

  /** `metadata.matchId`, `metadata.participants` (puuids by slot) and `info.frames`. */
  datatype Timeline = Timeline(matchId: string, participants: seq<string>, frames: seq<Frame>)

  type Team = t: int | 0 <= t <= 1

  datatype TrajectoryRow = TrajectoryRow(puuid: string, matchId: string, team: Option<Team>, positions: seq<Position>)

  /** Why a timeline is refused instead of being indexed outside the table. */
  datatype ParseError =
    | MissingParticipants(count: nat)  // fewer than ten puuids in the metadata
    | ParticipantOutOfRange            // a positioned entry whose id is not a slot 1..10

  /** The table has slots 1..10. */
  const SLOTS := 10
  const SLOT_IDS: set<int> := {1, 2, 3, 4, 5, 6, 7, 8, 9, 10}
  /** Both coordinates below this in the first frame: the team spawning bottom-left. */
  const LOW_CORNER := 2000
  /** Both coordinates above this in the first frame: the team spawning top-right. */
  const HIGH_CORNER := 13000

  function PositionIn(frame: Frame, pid: int): Option<Position> {
    if pid in frame.participantFrames then frame.participantFrames[pid].position else None
  }

  /**
   * The positions participant `pid` reports, frame after frame; frames
   * without one add nothing, so the trajectory is empty exactly when no
   * frame reports a position for `pid`.
   */
  function Positions(frames: seq<Frame>, pid: int): (ps: seq<Position>)
    ensures ps == [] <==> forall f :: 0 <= f < |frames| ==> PositionIn(frames[f], pid).None?
  {
    if frames == [] then []
    else
      Positions(frames[..|frames| - 1], pid)
      + match PositionIn(frames[|frames| - 1], pid) case Some(p) => [p] case None => []
  }

  /** The team a first-frame position reveals, if it lies in one of the two spawn corners. */
  function TeamAt(p: Position): Option<Team> {
    if p.x < LOW_CORNER && p.y < LOW_CORNER then Some(0)
    else if p.x > HIGH_CORNER && p.y > HIGH_CORNER then Some(1)
    else None
  }

  /**
   * The team of `pid`: decided by its position in the first frame and by
   * nothing else; a participant missing from the first frame has none.
   */
  function TeamOf(frames: seq<Frame>, pid: int): (t: Option<Team>)
    ensures t.Some? ==> frames != [] && PositionIn(frames[0], pid).Some?
  {
    if frames == [] then None
    else match PositionIn(frames[0], pid) case Some(p) => TeamAt(p) case None => None
  }

  /** An entry the source would write outside the table: it has a position but no slot. */
  predicate Stray(frame: Frame, pid: int) {
    pid in frame.participantFrames && frame.participantFrames[pid].position.Some? && !(1 <= pid <= SLOTS)
  }

  predicate HasStray(frames: seq<Frame>) {
    exists f, pid :: 0 <= f < |frames| && pid in frames[f].participantFrames && Stray(frames[f], pid)
  }

  /** Slot `pid`'s row after the first `n` frames. */
  function SlotRow(doc: Timeline, pid: int, n: nat): TrajectoryRow
    requires 1 <= pid <= SLOTS <= |doc.participants| && n <= |doc.frames|
  {
    TrajectoryRow(doc.participants[pid - 1], doc.matchId, TeamOf(doc.frames[..n], pid), Positions(doc.frames[..n], pid))
  }

  /**
   * What `parse_match_timeline` computes: ten rows, row i for slot i + 1,
   * or a refusal when the metadata has fewer than ten puuids or some frame
   * holds a positioned entry for an id outside 1..10.
   */
  function TimelineRows(doc: Timeline): (r: Result<seq<TrajectoryRow>, ParseError>)
    ensures r.Failure? <==> |doc.participants| < SLOTS || HasStray(doc.frames)
    ensures r.Success? ==> |r.value| == SLOTS
    ensures r.Success? ==> forall i :: 0 <= i < SLOTS ==>
      && r.value[i].puuid == doc.participants[i]
      && r.value[i].matchId == doc.matchId
      && r.value[i].positions == Positions(doc.frames, i + 1)
      && r.value[i].team == TeamOf(doc.frames, i + 1)
  {
    if |doc.participants| < SLOTS then Failure(MissingParticipants(|doc.participants|))
    else if HasStray(doc.frames) then Failure(ParticipantOutOfRange)
    else
      assert doc.frames[..|doc.frames|] == doc.frames;
      Success(seq(SLOTS, i requires 0 <= i < SLOTS => SlotRow(doc, i + 1, |doc.frames|)))
  }

  /** How one more frame changes a slot's row: one more position, and a team only from the first frame. */
  lemma SlotRowStep(doc: Timeline, pid: int, f: nat)
    requires 1 <= pid <= SLOTS <= |doc.participants| && f < |doc.frames|
    ensures PositionIn(doc.frames[f], pid).None? ==> SlotRow(doc, pid, f + 1) == SlotRow(doc, pid, f)
    ensures PositionIn(doc.frames[f], pid).Some? ==>
      var p := PositionIn(doc.frames[f], pid).value;
      SlotRow(doc, pid, f + 1) == SlotRow(doc, pid, f).(
        positions := SlotRow(doc, pid, f).positions + [p],
        team := if f == 0 then TeamAt(p) else SlotRow(doc, pid, f).team)
  {
    assert doc.frames[..f + 1][..f] == doc.frames[..f];
    if f > 0 {
      assert doc.frames[..f + 1][0] == doc.frames[..f][0];
    }
  }

  /** The table holds, for every slot, its row after the first `n` frames. */
  ghost predicate TableAfter(doc: Timeline, players: map<int, TrajectoryRow>, n: nat)
    requires SLOTS <= |doc.participants| && n <= |doc.frames|
  {
    forall pid :: 1 <= pid <= SLOTS ==> pid in players && players[pid] == SlotRow(doc, pid, n)
  }

  /**
   * `parse_match_timeline`: build the ten-slot table, then walk the frames in
   * order, recording each one. A positioned entry with an id outside 1..10
   * ends the parse with an error instead of being written.
   */
  method ParseMatchTimeline(doc: Timeline) returns (r: Result<seq<TrajectoryRow>, ParseError>)
    ensures r == TimelineRows(doc)
  {
    if |doc.participants| < SLOTS {
      return Failure(MissingParticipants(|doc.participants|));
    }
    var players := map pid | pid in SLOT_IDS :: TrajectoryRow(doc.participants[pid - 1], doc.matchId, None, []);
    assert doc.frames[..0] == [];
    var f := 0;
    while f < |doc.frames|
      invariant 0 <= f <= |doc.frames|
      invariant forall g, pid :: 0 <= g < f ==> !Stray(doc.frames[g], pid)
      invariant TableAfter(doc, players, f)
    {
      var stray;
      players, stray := RecordFrame(doc, f, players);
      if stray {
        return Failure(ParticipantOutOfRange);
      }
      f := f + 1;
    }
    assert !HasStray(doc.frames);
    r := Success(seq(SLOTS, i requires 0 <= i < SLOTS => players[i + 1]));
    assert r.value == TimelineRows(doc).value;
  }

  /**
   * The inner loop of `parse_match_timeline` over frame `f`'s entries, in
   * any order: an entry without a position is skipped; a positioned entry of
   * slot `pid` appends its position to that slot and, in the first frame,
   * sets the team when the position lies in a spawn corner; a positioned
   * entry without a slot stops the walk (`stray`) with nothing written for it.
   */
  method RecordFrame(doc: Timeline, f: nat, players: map<int, TrajectoryRow>)
    returns (next: map<int, TrajectoryRow>, stray: bool)
    requires SLOTS <= |doc.participants| && f < |doc.frames|
    requires TableAfter(doc, players, f)
    ensures stray <==> exists pid :: pid in doc.frames[f].participantFrames && Stray(doc.frames[f], pid)
    ensures !stray ==> TableAfter(doc, next, f + 1)
  {
    var frame := doc.frames[f];
    next := players;
    forall pid | 1 <= pid <= SLOTS
      ensures PositionIn(frame, pid).None? ==> SlotRow(doc, pid, f + 1) == SlotRow(doc, pid, f)
    {
      SlotRowStep(doc, pid, f);
    }
    var pending := frame.participantFrames.Keys;
    while pending != {}
      invariant pending <= frame.participantFrames.Keys
      invariant forall pid :: pid in frame.participantFrames && pid !in pending ==> !Stray(frame, pid)
      invariant forall pid :: 1 <= pid <= SLOTS ==>
        (pid in next &&
         next[pid] == if pid in pending && PositionIn(frame, pid).Some? then SlotRow(doc, pid, f) else SlotRow(doc, pid, f + 1))
      decreases pending
    {
      assert exists pid :: pid in pending by { var p := Pick(pending); }
      var pid :| pid in pending;
      pending := pending - {pid};
      var pos := frame.participantFrames[pid].position;
      if pos.None? {
        continue;
      }
      if !(1 <= pid <= SLOTS) {
        assert Stray(frame, pid);
        return next, true;
      }
      SlotRowStep(doc, pid, f);
      var x, y := pos.value.x, pos.value.y;
      next := next[pid := next[pid].(positions := next[pid].positions + [pos.value])];
      if f == 0 {
        if x < LOW_CORNER && y < LOW_CORNER {
          next := next[pid := next[pid].(team := Some(0))];
        } else if x > HIGH_CORNER && y > HIGH_CORNER {
          next := next[pid := next[pid].(team := Some(1))];
        }
      }
    }
    stray := false;
  }

  // ---------------------------------------------------------------------
  // Properties of the parse

  /** Positions follow frame order: the positions of a longer timeline extend those of its beginning. */
  lemma {:induction false} PositionsConcat(a: seq<Frame>, b: seq<Frame>, pid: int)
    ensures Positions(a + b, pid) == Positions(a, pid) + Positions(b, pid)
  {
    if b == [] {
      assert a + b == a;
    } else {
      var b0 := b[..|b| - 1];
      var added := match PositionIn(b[|b| - 1], pid) case Some(p) => [p] case None => [];
      assert (a + b)[..|a + b| - 1] == a + b0;
      assert (a + b)[|a + b| - 1] == b[|b| - 1];
      assert Positions(a + b, pid) == Positions(a + b0, pid) + added;
      assert Positions(b, pid) == Positions(b0, pid) + added;
      PositionsConcat(a, b0, pid);
      AppendAssoc(Positions(a, pid), Positions(b0, pid), added);
    }
  }

  /**
   * A participant has at most one position per frame, and each one is taken
   * from a frame that reports it.
   */
  lemma {:induction false} PositionsFromFrames(frames: seq<Frame>, pid: int)
    ensures |Positions(frames, pid)| <= |frames|
    ensures forall p :: p in Positions(frames, pid) ==>
      exists f :: 0 <= f < |frames| && PositionIn(frames[f], pid) == Some(p)
  {
    if frames != [] {
      var init := frames[..|frames| - 1];
      PositionsFromFrames(init, pid);
      forall p | p in Positions(frames, pid)
        ensures exists f :: 0 <= f < |frames| && PositionIn(frames[f], pid) == Some(p)
      {
        if p in Positions(init, pid) {
          var f :| 0 <= f < |init| && PositionIn(init[f], pid) == Some(p);
          assert frames[f] == init[f];
        } else {
          assert PositionIn(frames[|frames| - 1], pid) == Some(p);
        }
      }
    }
  }

  /** When every frame reports a position for `pid`, position j is frame j's. */
  lemma {:induction false} PositionsOnePerFrame(frames: seq<Frame>, pid: int)
    requires forall f :: 0 <= f < |frames| ==> PositionIn(frames[f], pid).Some?
    ensures |Positions(frames, pid)| == |frames|
    ensures forall j :: 0 <= j < |frames| ==> Positions(frames, pid)[j] == PositionIn(frames[j], pid).value
  {
    if frames != [] {
      var init, last := frames[..|frames| - 1], frames[|frames| - 1];
      assert forall f :: 0 <= f < |init| ==> init[f] == frames[f];
      PositionsOnePerFrame(init, pid);
      assert Positions(frames, pid) == Positions(init, pid) + [PositionIn(last, pid).value];
    }
  }

  /** Frames after the first never change a team. */
  lemma TeamFixedByFirstFrame(frames: seq<Frame>, later: seq<Frame>, pid: int)
    requires frames != []
    ensures TeamOf(frames + later, pid) == TeamOf(frames[..1], pid)
  {
  }

  /**
   * Participant 3 starting at (500, 500) is team 0 and participant 8 starting
   * at (14000, 14000) team 1, even after participant 3 walks to (14000, 14000).
   */
  lemma TeamsFromSpawnCorners(puuids: seq<string>, matchId: string)
    requires |puuids| == SLOTS
    ensures var first := Frame(map[3 := ParticipantFrame(Some(Position(500, 500))),
                                   8 := ParticipantFrame(Some(Position(14000, 14000)))]);
      var second := Frame(map[3 := ParticipantFrame(Some(Position(14000, 14000)))]);
      var r := TimelineRows(Timeline(matchId, puuids, [first, second]));
      && r.Success?
      && r.value[2].team == Some(0)
      && r.value[7].team == Some(1)
      && r.value[2].positions == [Position(500, 500), Position(14000, 14000)]
      && r.value[7].positions == [Position(14000, 14000)]
      && r.value[0].positions == [] && r.value[0].team == None
  {
    var first := Frame(map[3 := ParticipantFrame(Some(Position(500, 500))),
                           8 := ParticipantFrame(Some(Position(14000, 14000)))]);
    var second := Frame(map[3 := ParticipantFrame(Some(Position(14000, 14000)))]);
    var frames := [first, second];
    assert !HasStray(frames) by {
      forall f, pid | 0 <= f < 2 && pid in frames[f].participantFrames
        ensures !Stray(frames[f], pid)
      {
      }
    }
    assert frames[..1] == [first];
    assert Positions([first], 3) == [Position(500, 500)] by {
      assert [first][..0] == [];
    }
    assert Positions([first], 8) == [Position(14000, 14000)] by {
      assert [first][..0] == [];
    }
    assert Positions([first], 1) == [] by {
      assert [first][..0] == [];
    }
    assert frames[..|frames| - 1] == [first];
    assert Positions(frames, 3) == [Position(500, 500), Position(14000, 14000)];
    assert Positions(frames, 8) == [Position(14000, 14000)];
    assert Positions(frames, 1) == [];
  }

  /** A positioned entry for participant 11 makes the timeline a refusal, never an eleventh row. */
  lemma ParticipantElevenRefused(doc: Timeline, f: nat, p: Position)
    requires f < |doc.frames| && 11 in doc.frames[f].participantFrames
    requires doc.frames[f].participantFrames[11].position == Some(p)
    ensures TimelineRows(doc).Failure?
    ensures |doc.participants| >= SLOTS ==> TimelineRows(doc) == Failure(ParticipantOutOfRange)
  {
    assert Stray(doc.frames[f], 11);
  }

  // ---------------------------------------------------------------------
  // get_trajectories: the retry loop

  /** A call of `get_trajectories`: the payload or None, the requests sent and the seconds slept, in order. */
  datatype TrajectoryFetch<B> = TrajectoryFetch(result: Option<B>, requests: nat, sleeps: seq<nat>)

  /** The answers that make `get_trajectories` sleep and try again: a connection error or a 429. */
  predicate Retried<B>(r: Response<B>) {
    r.ConnectionError? || r.status == TOO_MANY_REQUESTS
  }

  /** The sleep after the request of attempt `attempt`, if its answer is retried. */
  function SleepAfter<B>(attempt: nat, r: Response<B>): seq<nat> {
    match r
    case ConnectionError => [2 + attempt]
    case Reply(status, retryAfter, _) => if status == TOO_MANY_REQUESTS then [retryAfter.GetOr(2) + 1] else []
  }

  /** The sleeps of the requests of attempts `from` up to `to`, in order. */
  function Sleeps<B>(server: nat -> Response<B>, from: nat, to: nat): seq<nat>
    decreases to - from
  {
    if from >= to then [] else SleepAfter(from, server(from)) + Sleeps(server, from + 1, to)
  }

  /**
   * `get_trajectories` from attempt `attempt` on, when request k is answered
   * with `server(k)`. Each request is followed by at most one sleep.
   */
  function TrajectoriesFrom<B>(server: nat -> Response<B>, maxRetries: nat, attempt: nat): (r: TrajectoryFetch<B>)
    ensures attempt <= r.requests
    ensures |r.sleeps| <= r.requests - attempt
    decreases maxRetries - attempt
  {
    if attempt >= maxRetries then TrajectoryFetch(None, attempt, [])
    else
      match server(attempt)
      case ConnectionError =>
        var rest := TrajectoriesFrom(server, maxRetries, attempt + 1);
        rest.(sleeps := [2 + attempt] + rest.sleeps)
      case Reply(status, retryAfter, body) =>
        if status == OK then TrajectoryFetch(Some(body), attempt + 1, [])
        else if status == TOO_MANY_REQUESTS then
          var rest := TrajectoriesFrom(server, maxRetries, attempt + 1);
          rest.(sleeps := [retryAfter.GetOr(2) + 1] + rest.sleeps)
        else TrajectoryFetch(None, attempt + 1, [])
  }

  /**
   * The promise of the loop, from attempt `start` on: at most `maxRetries`
   * requests in all; every answer but the last was retried; the loop stops
   * early only on an answer it does not retry; the payload is there exactly
   * when the last answer is a 200, and is that answer's body; and the sleeps
   * are those of the retried answers, in order.
   */
  ghost predicate TrajectoriesContract<B>(server: nat -> Response<B>, maxRetries: nat, start: nat, o: TrajectoryFetch<B>) {
    && start <= o.requests <= maxRetries
    && (forall k :: start <= k < o.requests - 1 ==> Retried(server(k)))
    && (o.requests < maxRetries ==> o.requests > start && !Retried(server(o.requests - 1)))
    && (o.result.Some? <==> o.requests > start && IsOk(server(o.requests - 1)))
    && (o.result.Some? ==> o.result.value == server(o.requests - 1).body)
    && o.sleeps == Sleeps(server, start, o.requests)
  }

  lemma {:induction false} TrajectoriesOutcome<B>(server: nat -> Response<B>, maxRetries: nat, attempt: nat)
    requires attempt <= maxRetries
    ensures TrajectoriesContract(server, maxRetries, attempt, TrajectoriesFrom(server, maxRetries, attempt))
    decreases maxRetries - attempt
  {
    if attempt < maxRetries {
      var r := server(attempt);
      if Retried(r) {
        TrajectoriesOutcome(server, maxRetries, attempt + 1);
      }
    }
  }

  /**
   * `get_trajectories`: up to `maxRetries` requests; a 200 returns its body,
   * a 429 sleeps `Retry-After` + 1 seconds (`Retry-After` 2 when absent), a
   * connection error sleeps 2 + attempt seconds, and any other status gives
   * up at once; running out of attempts gives None.
   */
  method GetTrajectories<B>(server: nat -> Response<B>, maxRetries: nat) returns (result: Option<B>, requests: nat, sleeps: seq<nat>)
    ensures TrajectoryFetch(result, requests, sleeps) == TrajectoriesFrom(server, maxRetries, 0)
  {
    ghost var spec := TrajectoriesFrom(server, maxRetries, 0);
    result, requests, sleeps := None, 0, [];
    var attempt := 0;
    while attempt < maxRetries
      invariant attempt <= maxRetries && requests == attempt
      invariant Resumes(spec, sleeps, TrajectoriesFrom(server, maxRetries, attempt))
    {
      var response := server(attempt);
      requests := requests + 1;
      var done, outcome, slept := Classify(response, attempt);
      if done {
        FinalStep(server, maxRetries, attempt, sleeps, spec);
        return outcome, requests, sleeps;
      }
      RetryStep(server, maxRetries, attempt, sleeps, spec);
      sleeps := sleeps + slept;
      attempt := attempt + 1;
    }
    result := None;
  }

  /** What an answer that is not retried makes the call return. */
  function Final<B>(r: Response<B>): Option<B> {
    if IsOk(r) then Some(r.body) else None
  }

  /**
   * One pass of the loop of `get_trajectories` over its answer: a connection
   * error sleeps 2 + attempt seconds, a 200 ends it with the body, a 429
   * sleeps `Retry-After` + 1 seconds, and any other status ends it with None.
   */
  method Classify<B>(response: Response<B>, attempt: nat) returns (done: bool, outcome: Option<B>, slept: seq<nat>)
    ensures done <==> !Retried(response)
    ensures done ==> outcome == Final(response)
    ensures !done ==> slept == SleepAfter(attempt, response)
  {
    if response.ConnectionError? {
      return false, None, [2 + attempt];
    } else if response.status == OK {
      return true, Some(response.body), [];
    } else if response.status == TOO_MANY_REQUESTS {
      return false, None, [response.retryAfter.GetOr(2) + 1];
    } else {
      return true, None, [];
    }
  }

  /** `spec` is what remains, `rest`, after the sleeps `done` already happened. */
  ghost predicate Resumes<B>(spec: TrajectoryFetch<B>, done: seq<nat>, rest: TrajectoryFetch<B>) {
    spec == rest.(sleeps := done + rest.sleeps)
  }

  /** An answer that is not retried ends the call: with its body after a 200, with None otherwise. */
  lemma FinalStep<B>(server: nat -> Response<B>, maxRetries: nat, attempt: nat, done: seq<nat>, spec: TrajectoryFetch<B>)
    requires attempt < maxRetries && !Retried(server(attempt))
    requires Resumes(spec, done, TrajectoriesFrom(server, maxRetries, attempt))
    ensures spec == TrajectoryFetch(Final(server(attempt)), attempt + 1, done)
  {
  }

  /** A retried answer adds its sleep and hands over to the next attempt. */
  lemma RetryStep<B>(server: nat -> Response<B>, maxRetries: nat, attempt: nat, done: seq<nat>, spec: TrajectoryFetch<B>)
    requires attempt < maxRetries && Retried(server(attempt))
    requires Resumes(spec, done, TrajectoriesFrom(server, maxRetries, attempt))
    ensures Resumes(spec, done + SleepAfter(attempt, server(attempt)), TrajectoriesFrom(server, maxRetries, attempt + 1))
  {
    var rest := TrajectoriesFrom(server, maxRetries, attempt + 1);
    assert done + (SleepAfter(attempt, server(attempt)) + rest.sleeps)
        == (done + SleepAfter(attempt, server(attempt))) + rest.sleeps;
  }

  /** A 429 without `Retry-After` followed by a 200: the payload, two requests, one sleep of three seconds. */
  lemma RateLimitedOnceThenServed<B>(server: nat -> Response<B>, body: B)
    requires server(0).Reply? && server(0).status == TOO_MANY_REQUESTS && server(0).retryAfter == None
    requires server(1) == Reply(OK, None, body)
    ensures TrajectoriesFrom(server, MAX_RETRIES, 0) == TrajectoryFetch(Some(body), 2, [3])
  {
  }

  /** A server error is not retried here: one request, no sleep, no payload. */
  lemma ServerErrorIsFinal<B>(server: nat -> Response<B>, maxRetries: nat)
    requires maxRetries > 0 && server(0).Reply? && server(0).status >= 500
    ensures TrajectoriesFrom(server, maxRetries, 0) == TrajectoryFetch(None, 1, [])
  {
  }

  // ---------------------------------------------------------------------
  // The worker and the shared list

  /** What one match adds to the shared list: its ten rows if it was fetched and parses, nothing otherwise. */
  function Contribution(fetched: Option<Timeline>): (rows: seq<TrajectoryRow>)
    ensures fetched.None? ==> rows == []
    ensures fetched.Some? && TimelineRows(fetched.value).Success? ==> rows == TimelineRows(fetched.value).value
    ensures fetched.Some? && TimelineRows(fetched.value).Failure? ==> rows == []
    ensures rows == [] || |rows| == SLOTS
    ensures forall i :: 0 <= i < |rows| ==> rows[i].matchId == fetched.value.matchId
  {
    match fetched
    case None => []
    case Some(doc) =>
      match TimelineRows(doc)
      case Success(rows) => rows
      case Failure(_) => []
  }

  /** The timeline oracle: the answer to the k-th request for a match id. */
  type TimelineServer = string -> nat -> Response<Timeline>

  /** The timeline `get_trajectories` hands the worker for one match id. */
  function Fetched(matchId: string, server: TimelineServer): Option<Timeline> {
    TrajectoriesFrom(server(matchId), MAX_RETRIES, 0).result
  }

  /**
   * All rows a worker appends for its queue, match after match: ten rows
   * for each match that contributes, so a whole number of matches and at
   * most ten rows per queued id.
   */
  function Collected(matchIds: seq<string>, server: TimelineServer): (rows: seq<TrajectoryRow>)
    ensures |rows| % 10 == 0
    ensures |rows| <= 10 * |matchIds|
  {
    if matchIds == [] then []
    else
      var init, last := matchIds[..|matchIds| - 1], matchIds[|matchIds| - 1];
      var prev, added := Collected(init, server), Contribution(Fetched(last, server));
      assert |prev + added| == |prev| + |added|;
      if added == [] then prev
      else
        WholeMatches(|prev|);
        prev + added
  }

  /** One more match of rows keeps the row count a whole number of matches. */
  lemma WholeMatches(n: nat)
    requires n % 10 == 0
    ensures (n + SLOTS) % 10 == 0
  {
  }

  /** Splitting a queue splits what it appends: the shared list grows match by match. */
  lemma {:induction false} CollectedConcat(a: seq<string>, b: seq<string>, server: TimelineServer)
    ensures Collected(a + b, server) == Collected(a, server) + Collected(b, server)
  {
    if b == [] {
      assert a + b == a;
    } else {
      var b0, last := b[..|b| - 1], b[|b| - 1];
      var c := Contribution(Fetched(last, server));
      assert (a + b)[..|a + b| - 1] == a + b0;
      assert (a + b)[|a + b| - 1] == last;
      assert Collected(a + b, server) == Collected(a + b0, server) + c;
      assert Collected(b, server) == Collected(b0, server) + c;
      CollectedConcat(a, b0, server);
      AppendAssoc(Collected(a, server), Collected(b0, server), c);
    }
  }

  /**
   * The rows of a queue read front to back: for each match id in turn, the
   * parsed rows of its fetched timeline when there is one and it parses.
   */
  function ParsedRows(matchIds: seq<string>, server: TimelineServer): seq<TrajectoryRow> {
    if matchIds == [] then []
    else
      var head := match Fetched(matchIds[0], server)
        case Some(doc) => (match TimelineRows(doc) case Success(rows) => rows case Failure(_) => [])
        case None => [];
      head + ParsedRows(matchIds[1..], server)
  }

  /** What a worker appends is its queue's parsed rows, match by match in queue order. */
  lemma {:induction false} CollectedIsParsedRows(matchIds: seq<string>, server: TimelineServer)
    ensures Collected(matchIds, server) == ParsedRows(matchIds, server)
  {
    if matchIds != [] {
      var first, rest := matchIds[..1], matchIds[1..];
      var added := Contribution(Fetched(matchIds[0], server));
      assert ParsedRows(matchIds, server) == added + ParsedRows(rest, server);
      assert Collected(first, server) == added by {
        assert first[..0] == [];
      }
      assert matchIds == first + rest;
      CollectedConcat(first, rest, server);
      CollectedIsParsedRows(rest, server);
    }
  }

  /** The list shared by the four workers, guarded by one lock: every extend is atomic. */
  class TrajectoryStore {
    var rows: seq<TrajectoryRow>

    constructor()
      ensures rows == []
    {
      rows := [];
    }

    method Extend(batch: seq<TrajectoryRow>)
      modifies this
      ensures rows == old(rows) + batch
    {
      rows := rows + batch;
    }
  }

  /**
   * `fetch_trajectories_for_routing`: for each match of the domain's queue,
   * fetch its timeline and, when that gives a payload, append the parsed
   * rows to the shared list. A timeline that is refused by the parser is
   * skipped.
   */
  method FetchTrajectoriesForRouting(matchIds: seq<string>, server: TimelineServer, store: TrajectoryStore)
    modifies store
    ensures store.rows == old(store.rows) + Collected(matchIds, server)
  {
    ghost var start := store.rows;
    var i := 0;
    while i < |matchIds|
      invariant 0 <= i <= |matchIds|
      invariant store.rows == start + Collected(matchIds[..i], server)
    {
      var rows := FetchMatch(matchIds[i], server);
      store.Extend(rows);
      CollectedStep(matchIds, i, server);
      AppendAssoc(start, Collected(matchIds[..i], server), rows);
      i := i + 1;
    }
    assert matchIds[..|matchIds|] == matchIds;
  }

  /** One match of the worker: fetch its timeline and parse it, keeping nothing on failure. */
  method FetchMatch(matchId: string, server: TimelineServer) returns (rows: seq<TrajectoryRow>)
    ensures rows == Contribution(Fetched(matchId, server))
  {
    var timeline, requests, sleeps := GetTrajectories(server(matchId), MAX_RETRIES);
    rows := [];
    if timeline.Some? {
      var parsed := ParseMatchTimeline(timeline.value);
      if parsed.Success? {
        rows := parsed.value;
      }
    }
  }

  lemma CollectedStep(matchIds: seq<string>, i: nat, server: TimelineServer)
    requires i < |matchIds|
    ensures Collected(matchIds[..i + 1], server)
         == Collected(matchIds[..i], server) + Contribution(Fetched(matchIds[i], server))
  {
    assert matchIds[..i + 1][..i] == matchIds[..i];
  }

  // ---------------------------------------------------------------------
  // The worker as written: a refused timeline raises out of the worker

  /** A worker's run as written: the rows it appended and whether it raised. */
  datatype WorkerRun = WorkerRun(rows: seq<TrajectoryRow>, crashed: bool)

  /** A fetched timeline that `parse_match_timeline` cannot read. */
  predicate Refused(fetched: Option<Timeline>) {
    fetched.Some? && TimelineRows(fetched.value).Failure?
  }

  /**
   * `fetch_trajectories_for_routing` as written: the parse of a refused
   * timeline raises (a `KeyError` on the slot table or an `IndexError` on
   * the participants), the worker stops at that match, and `main` re-raises
   * it from `future.result()` before anything is written.
   */
  function CollectedAsWritten(matchIds: seq<string>, server: TimelineServer): (run: WorkerRun)
    ensures |run.rows| <= 10 * |matchIds|
  {
    if matchIds == [] then WorkerRun([], false)
    else
      var prev := CollectedAsWritten(matchIds[..|matchIds| - 1], server);
      var fetched := Fetched(matchIds[|matchIds| - 1], server);
      if prev.crashed then prev
      else if Refused(fetched) then WorkerRun(prev.rows, true)
      else WorkerRun(prev.rows + Contribution(fetched), false)
  }

  /** As written, a worker finishes exactly when none of its matches is refused. */
  lemma AsWrittenFinishesWithoutRefusal(matchIds: seq<string>, server: TimelineServer)
    ensures !CollectedAsWritten(matchIds, server).crashed
        <==> forall i :: 0 <= i < |matchIds| ==> !Refused(Fetched(matchIds[i], server))
  {
    AsWrittenCrashesOnRefusal(matchIds, server);
    AsWrittenCrashesOnlyOnRefusal(matchIds, server);
  }

  /** A refused match anywhere in the queue makes the worker raise. */
  lemma {:induction false} AsWrittenCrashesOnRefusal(matchIds: seq<string>, server: TimelineServer)
    ensures forall i :: 0 <= i < |matchIds| && Refused(Fetched(matchIds[i], server)) ==>
      CollectedAsWritten(matchIds, server).crashed
  {
    if matchIds != [] {
      var init := matchIds[..|matchIds| - 1];
      AsWrittenCrashesOnRefusal(init, server);
      forall i | 0 <= i < |matchIds| && Refused(Fetched(matchIds[i], server))
        ensures CollectedAsWritten(matchIds, server).crashed
      {
        if i < |init| {
          assert matchIds[i] == init[i];
        }
      }
    }
  }

  /** The worker raises only at a refused match. */
  lemma {:induction false} AsWrittenCrashesOnlyOnRefusal(matchIds: seq<string>, server: TimelineServer)
    ensures CollectedAsWritten(matchIds, server).crashed ==>
      exists i :: 0 <= i < |matchIds| && Refused(Fetched(matchIds[i], server))
  {
    if matchIds != [] {
      var init := matchIds[..|matchIds| - 1];
      AsWrittenCrashesOnlyOnRefusal(init, server);
      if CollectedAsWritten(init, server).crashed {
        var i :| 0 <= i < |init| && Refused(Fetched(init[i], server));
        assert matchIds[i] == init[i];
      }
    }
  }

  /** A worker that finishes as written appends what the corrected worker appends. */
  lemma {:induction false} AsWrittenAgreesWithoutRefusal(matchIds: seq<string>, server: TimelineServer)
    ensures !CollectedAsWritten(matchIds, server).crashed ==> CollectedAsWritten(matchIds, server).rows == Collected(matchIds, server)
  {
    if matchIds != [] {
      AsWrittenAgreesWithoutRefusal(matchIds[..|matchIds| - 1], server);
    }
  }

  /**
   * A queue whose first match carries a positioned participant 11 and whose
   * second match parses: as written the worker raises and nothing survives,
   * while the corrected worker keeps the second match's ten rows.
   */
  lemma EleventhParticipantLosesTheQueue(a: string, b: string, bad: Timeline, good: Timeline, server: TimelineServer, p: Position)
    requires a != b
    requires server(a)(0) == Reply(OK, None, bad) && server(b)(0) == Reply(OK, None, good)
    requires |bad.participants| == SLOTS && |bad.frames| == 1
    requires bad.frames[0].participantFrames == map[11 := ParticipantFrame(Some(p))]
    requires |good.participants| == SLOTS && good.frames == []
    ensures CollectedAsWritten([a, b], server) == WorkerRun([], true)
    ensures |Collected([a, b], server)| == SLOTS
  {
    assert Stray(bad.frames[0], 11);
    assert Fetched(a, server) == Some(bad);
    assert Fetched(b, server) == Some(good);
    assert [a, b][..1] == [a];
    assert [a][..0] == [];
    assert !HasStray(good.frames);
    assert Collected([a], server) == [];
    assert |Contribution(Some(good))| == SLOTS;
  }

  /**
   * The corrected worker: a refused timeline adds nothing and the matches
   * around it are kept as if it were not in the queue.
   */
  lemma RefusedMatchAddsNothing(before: seq<string>, m: string, after: seq<string>, server: TimelineServer)
    requires Refused(Fetched(m, server))
    ensures Collected(before + [m] + after, server) == Collected(before, server) + Collected(after, server)
  {
    assert Contribution(Fetched(m, server)) == [];
    assert Collected([m], server) == [] by {
      assert [m][..0] == [];
      assert Collected([m], server) == Collected([], server) + Contribution(Fetched(m, server));
    }
    CollectedConcat(before, [m], server);
    assert Collected(before + [m], server) == Collected(before, server);
    CollectedConcat(before + [m], after, server);
  }
}
