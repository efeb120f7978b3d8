/**
 * The player index: `get_ranked_data` (one league listing per region and
 * rank, chosen by the rank's tier), `parse_data` (entries to player
 * records) and `deduplicate_player_data` (one record per puuid, of its
 * highest rank).
 */
module Players {
  import opened Wrappers
  import opened Text
  import opened Http
  import Routing

  // ---------------------------------------------------------------------
  // Constants

  const REGIONS: set<string> := {"eun1", "euw1", "kr", "na1", "br1", "jp", "ru", "oc1"}
  /** The apex tiers, one listing each; written lower-case as the league URLs spell them. */
  const RANKS_HIGHELO: set<string> := {"challenger", "grandmaster", "master"}
  /** The divided tiers, one listing per division. */
  const RANKS_LOWELO: set<string> := {"DIAMOND", "EMERALD", "PLATINUM", "GOLD", "SILVER"}
  const DIVISIONS: set<string> := {"IV", "III", "II", "I"}
  const RANK_PRIORITY: map<string, int> := map[
    "CHALLENGER" := 7,
    "GRANDMASTER" := 6,
    "MASTER" := 5,
    "DIAMOND" := 4,
    "EMERALD" := 3,
    "PLATINUM" := 2,
    "GOLD" := 1,
    "SILVER" := 0
  ]

  /** The regions the index accepts are exactly the platforms the match routing knows. */
  lemma RegionsAreRoutable()
    ensures REGIONS == Routing.PLATFORMS
    ensures forall region :: region in REGIONS ==> Routing.RegionRouting(region).Some?
  {
    Routing.MatchRoutingShape();
  }

  /** The tier of a priority: the inverse of `RANK_PRIORITY`. */
  function TierOf(priority: int): string {
    if priority == 7 then "CHALLENGER"
    else if priority == 6 then "GRANDMASTER"
    else if priority == 5 then "MASTER"
    else if priority == 4 then "DIAMOND"
    else if priority == 3 then "EMERALD"
    else if priority == 2 then "PLATINUM"
    else if priority == 1 then "GOLD"
    else "SILVER"
  }

  /**
   * `RANK_PRIORITY` orders the eight tiers from CHALLENGER (7) down to
   * SILVER (0) and tells every two tiers apart: `TierOf` undoes it.
   */
  lemma RankPriorityInjective()
    ensures forall a :: a in RANK_PRIORITY ==> 0 <= RANK_PRIORITY[a] <= 7 && TierOf(RANK_PRIORITY[a]) == a
    ensures forall a, b :: a in RANK_PRIORITY && b in RANK_PRIORITY && a != b ==> RANK_PRIORITY[a] != RANK_PRIORITY[b]
    ensures RANK_PRIORITY["CHALLENGER"] == 7 && RANK_PRIORITY["SILVER"] == 0
  {
    forall a | a in RANK_PRIORITY
      ensures 0 <= RANK_PRIORITY[a] <= 7 && TierOf(RANK_PRIORITY[a]) == a
    {
    }
  }

  // ---------------------------------------------------------------------
  // Records

  /** One entry of a league listing; only its `puuid` is read. */
  datatype LeagueEntry = LeagueEntry(puuid: string)

  /** A row of the player index. */
  datatype PlayerRecord = PlayerRecord(puuid: string, region: string, rank: string)

  // ---------------------------------------------------------------------
  // get_ranked_data

  /**
   * What `get_ranked_data` gives: it raises for an unknown region, returns
   * None, returns the list of entries, or (the divided tiers as written)
   * returns a one-element list that wraps one division's entries.
   */
  datatype RankedData =
    | RegionRefused
    | NoData
    | Entries(entries: seq<LeagueEntry>)
    | WrappedPage(page: seq<LeagueEntry>)

  /** The order in which the loop visits `DIVISIONS`: each of the four once. */
  ghost predicate DivisionOrder(divisions: seq<string>) {
    |divisions| == |DIVISIONS| && (forall d :: d in divisions <==> d in DIVISIONS)
  }

  predicate IsHighElo(rank: string) {
    Lower(rank) in RANKS_HIGHELO
  }

  predicate IsLowElo(rank: string) {
    Upper(rank) in RANKS_LOWELO
  }

  /** The listing's entries when the answer is a 200, or nothing. */
  function Listing(r: Response<seq<LeagueEntry>>): Option<seq<LeagueEntry>> {
    if IsOk(r) then Some(r.body) else None
  }

  /**
   * Every division's listing, in the visiting order, concatenated; nothing
   * as soon as one of them is not a 200.
   */
  function AllPages(divisions: seq<string>, pages: string -> Response<seq<LeagueEntry>>): (r: Option<seq<LeagueEntry>>)
    ensures r.Some? <==> forall i :: 0 <= i < |divisions| ==> IsOk(pages(divisions[i]))
  {
    if divisions == [] then Some([])
    else
      var init := divisions[..|divisions| - 1];
      match AllPages(init, pages)
      case None => None
      case Some(acc) =>
        match Listing(pages(divisions[|divisions| - 1]))
        case None => None
        case Some(page) => Some(acc + page)
  }

  /** The entries of the last division visited, if its listing was a 200. */
  function LastPage(divisions: seq<string>, pages: string -> Response<seq<LeagueEntry>>): seq<LeagueEntry> {
    if divisions == [] then [] else Listing(pages(divisions[|divisions| - 1])).GetOr([])
  }

  /**
   * `get_ranked_data` as written: the region is checked first; an apex tier
   * makes one request and a 200 gives its entries; a divided tier requests
   * every division and, because the list is re-created inside the loop and
   * the entries are appended as one element, gives only the last division's
   * entries wrapped in a list; any other answer, and any other rank, gives
   * None.
   */
  function RankedAsWritten(region: string, rank: string, divisions: seq<string>,
                           league: Response<seq<LeagueEntry>>, pages: string -> Response<seq<LeagueEntry>>): (r: RankedData)
    requires DivisionOrder(divisions)
    ensures r.RegionRefused? <==> region !in REGIONS
    ensures region in REGIONS && IsHighElo(rank) ==>
      r == if IsOk(league) then Entries(league.body) else NoData
    ensures r.Entries? ==> IsHighElo(rank)
    ensures r.WrappedPage? <==> (region in REGIONS && !IsHighElo(rank) && IsLowElo(rank) &&
      forall i :: 0 <= i < |divisions| ==> IsOk(pages(divisions[i])))
    ensures r.WrappedPage? ==> r.page == LastPage(divisions, pages)
  {
    if region !in REGIONS then RegionRefused
    else if IsHighElo(rank) then
      match Listing(league) case Some(entries) => Entries(entries) case None => NoData
    else if IsLowElo(rank) then
      if AllPages(divisions, pages).Some? then WrappedPage(LastPage(divisions, pages)) else NoData
    else NoData
  }

  /** `get_ranked_data` as evidently intended: a divided tier gives the entries of all its divisions. */
  function Ranked(region: string, rank: string, divisions: seq<string>,
                  league: Response<seq<LeagueEntry>>, pages: string -> Response<seq<LeagueEntry>>): (r: RankedData)
    requires DivisionOrder(divisions)
    ensures !r.WrappedPage?
    ensures r.RegionRefused? <==> region !in REGIONS
    ensures r.Entries? <==> (region in REGIONS &&
      if IsHighElo(rank) then IsOk(league)
      else IsLowElo(rank) && forall i :: 0 <= i < |divisions| ==> IsOk(pages(divisions[i])))
    ensures r.Entries? && IsHighElo(rank) ==> r.entries == league.body
    ensures r.Entries? && !IsHighElo(rank) ==>
      AllPages(divisions, pages).Some? && r.entries == AllPages(divisions, pages).value
  {
    if region !in REGIONS then RegionRefused
    else if IsHighElo(rank) then
      match Listing(league) case Some(entries) => Entries(entries) case None => NoData
    else if IsLowElo(rank) then
      match AllPages(divisions, pages) case Some(entries) => Entries(entries) case None => NoData
    else NoData
  }

  /**
   * `get_ranked_data` with the division loop accumulating: region check,
   * tier classification (`rank.lower()` for the apex tiers, `rank.upper()`
   * for the divided ones), one request per listing, None on any non-200 or
   * request exception.
   */
  method GetRankedData(region: string, rank: string, divisions: seq<string>,
                       league: Response<seq<LeagueEntry>>, pages: string -> Response<seq<LeagueEntry>>) returns (r: RankedData)
    requires DivisionOrder(divisions)
    ensures r == Ranked(region, rank, divisions, league, pages)
  {
    if region !in REGIONS {
      return RegionRefused;
    }
    if Lower(rank) in RANKS_HIGHELO {
      if league.ConnectionError? || league.status != OK {
        return NoData;
      }
      return Entries(league.body);
    } else if Upper(rank) in RANKS_LOWELO {
      var players: seq<LeagueEntry> := [];
      var i := 0;
      while i < |divisions|
        invariant 0 <= i <= |divisions|
        invariant AllPages(divisions[..i], pages) == Some(players)
      {
        var response := pages(divisions[i]);
        assert divisions[..i + 1][..i] == divisions[..i];
        if response.ConnectionError? || response.status != OK {
          PagesStop(divisions, i + 1, pages);
          return NoData;
        }
        players := players + response.body;
        i := i + 1;
      }
      assert divisions[..i] == divisions;
      return Entries(players);
    }
    return NoData;
  }

  /** With every listing answered, each division's entries are all in the accumulated result. */
  lemma {:induction false} AllPagesHoldsEveryPage(divisions: seq<string>, pages: string -> Response<seq<LeagueEntry>>, i: int)
    requires AllPages(divisions, pages).Some? && 0 <= i < |divisions|
    ensures forall e :: e in pages(divisions[i]).body ==> e in AllPages(divisions, pages).value
  {
    var init := divisions[..|divisions| - 1];
    assert AllPages(init, pages).Some?;
    if i < |init| {
      AllPagesHoldsEveryPage(init, pages, i);
      assert init[i] == divisions[i];
    }
  }

  /** A failed listing among the first `n` divisions fails the whole walk. */
  lemma PagesStop(divisions: seq<string>, n: nat, pages: string -> Response<seq<LeagueEntry>>)
    requires 0 < n <= |divisions| && !IsOk(pages(divisions[n - 1]))
    ensures AllPages(divisions, pages) == None
  {
    assert divisions[..n][n - 1] == divisions[n - 1];
  }

  /**
   * The division loop as written keeps one division: with every listing
   * answered, a divided tier yields the last visited division's entries
   * wrapped in a one-element list instead of all entries; `parse_data`
   * then reads that inner list as if it were an entry.
   */
  lemma LowEloKeepsLastDivision(region: string, rank: string, divisions: seq<string>,
                                league: Response<seq<LeagueEntry>>, pages: string -> Response<seq<LeagueEntry>>)
    requires DivisionOrder(divisions) && region in REGIONS && IsLowElo(rank) && !IsHighElo(rank)
    requires forall i :: 0 <= i < |divisions| ==> IsOk(pages(divisions[i]))
    ensures RankedAsWritten(region, rank, divisions, league, pages) == WrappedPage(LastPage(divisions, pages))
    ensures Ranked(region, rank, divisions, league, pages) == Entries(AllPages(divisions, pages).value)
  {
  }

  /**
   * A concrete instance: four divisions of one entry each. As written the
   * result is a wrapped page of one entry; intended, all four entries.
   */
  lemma LowEloLosesThreeDivisions(pages: string -> Response<seq<LeagueEntry>>, league: Response<seq<LeagueEntry>>)
    requires forall d :: d in DIVISIONS ==> pages(d) == Reply(OK, None, [LeagueEntry(d)])
    ensures RankedAsWritten("euw1", "gold", ["IV", "III", "II", "I"], league, pages) == WrappedPage([LeagueEntry("I")])
    ensures Ranked("euw1", "gold", ["IV", "III", "II", "I"], league, pages)
         == Entries([LeagueEntry("IV"), LeagueEntry("III"), LeagueEntry("II"), LeagueEntry("I")])
  {
    assert DivisionOrder(["IV", "III", "II", "I"]);
    assert Upper("gold") == "GOLD" && Lower("gold") == "gold";
    OneEntryPerDivision(pages);
  }

  /** The division walk of the instance above, one listing at a time. */
  lemma OneEntryPerDivision(pages: string -> Response<seq<LeagueEntry>>)
    requires forall d :: d in DIVISIONS ==> pages(d) == Reply(OK, None, [LeagueEntry(d)])
    ensures AllPages(["IV", "III", "II", "I"], pages)
         == Some([LeagueEntry("IV"), LeagueEntry("III"), LeagueEntry("II"), LeagueEntry("I")])
    ensures LastPage(["IV", "III", "II", "I"], pages) == [LeagueEntry("I")]
  {
    assert "IV" in DIVISIONS && "III" in DIVISIONS && "II" in DIVISIONS && "I" in DIVISIONS;
    assert Listing(pages("IV")) == Some([LeagueEntry("IV")]);
    assert Listing(pages("III")) == Some([LeagueEntry("III")]);
    assert Listing(pages("II")) == Some([LeagueEntry("II")]);
    assert Listing(pages("I")) == Some([LeagueEntry("I")]);
    assert AllPages([], pages) == Some([]);
    assert AllPages(["IV"], pages) == Some([LeagueEntry("IV")]) by {
      assert ["IV"][..0] == [];
      assert ["IV"][0] == "IV";
      assert [] + [LeagueEntry("IV")] == [LeagueEntry("IV")];
    }
    assert AllPages(["IV", "III"], pages) == Some([LeagueEntry("IV"), LeagueEntry("III")]) by {
      assert ["IV", "III"][..1] == ["IV"];
      assert ["IV", "III"][1] == "III";
      assert [LeagueEntry("IV")] + [LeagueEntry("III")] == [LeagueEntry("IV"), LeagueEntry("III")];
    }
    assert AllPages(["IV", "III", "II"], pages) == Some([LeagueEntry("IV"), LeagueEntry("III"), LeagueEntry("II")]) by {
      assert ["IV", "III", "II"][..2] == ["IV", "III"];
      assert ["IV", "III", "II"][2] == "II";
      assert [LeagueEntry("IV"), LeagueEntry("III")] + [LeagueEntry("II")] == [LeagueEntry("IV"), LeagueEntry("III"), LeagueEntry("II")];
    }
    assert ["IV", "III", "II", "I"][..3] == ["IV", "III", "II"];
    assert ["IV", "III", "II", "I"][3] == "I";
    assert [LeagueEntry("IV"), LeagueEntry("III"), LeagueEntry("II")] + [LeagueEntry("I")]
        == [LeagueEntry("IV"), LeagueEntry("III"), LeagueEntry("II"), LeagueEntry("I")];
  }

  /** A rank either tier accepts is, upper-cased, a key of `RANK_PRIORITY`. */
  lemma AcceptedRanksHavePriority(rank: string)
    requires IsHighElo(rank) || IsLowElo(rank)
    ensures Upper(rank) in RANK_PRIORITY
  {
    if IsHighElo(rank) {
      UpperOfLower(rank);
      assert Upper("challenger") == "CHALLENGER";
      assert Upper("grandmaster") == "GRANDMASTER";
      assert Upper("master") == "MASTER";
    }
  }

  // ---------------------------------------------------------------------
  // parse_data

  /** `parse_data`: one record per entry, in order, with the given region and the rank upper-cased. */
  method ParseData(entries: seq<LeagueEntry>, region: string, rank: string) returns (results: seq<PlayerRecord>)
    ensures |results| == |entries|
    ensures forall i :: 0 <= i < |entries| ==>
      results[i].puuid == entries[i].puuid && results[i].region == region && results[i].rank == Upper(rank)
  {
    results := [];
    var upper := Upper(rank);
    for i := 0 to |entries|
      invariant |results| == i
      invariant forall j :: 0 <= j < i ==>
        results[j].puuid == entries[j].puuid && results[j].region == region && results[j].rank == upper
    {
      results := results + [PlayerRecord(entries[i].puuid, region, upper)];
    }
  }

  // ---------------------------------------------------------------------
  // deduplicate_player_data

  /** A record's `rank_priority`; a rank outside the table maps to NaN, which sorts after every number. */
  function Priority(rank: string): int {
    if rank in RANK_PRIORITY then RANK_PRIORITY[rank] else -1
  }

  ghost predicate SortedByPriority(s: seq<PlayerRecord>) {
    forall i, j :: 0 <= i < j < |s| ==> Priority(s[i].rank) >= Priority(s[j].rank)
  }

  /** The puuids of a list of records. */
  function Puuids(s: seq<PlayerRecord>): set<string> {
    if s == [] then {} else {s[0].puuid} + Puuids(s[1..])
  }

  /** Insert into a list sorted by decreasing priority, before the first lower one. */
  function Insert(x: PlayerRecord, s: seq<PlayerRecord>): (r: seq<PlayerRecord>)
    requires SortedByPriority(s)
    ensures multiset(r) == multiset(s) + multiset{x}
    ensures SortedByPriority(r)
  {
    if s == [] then [x]
    else if Priority(x.rank) >= Priority(s[0].rank) then [x] + s
    else
      var tail := Insert(x, s[1..]);
      InsertBelow(x, s, tail);
      [s[0]] + tail
  }

  /** Placing the head in front of a sorted tail that holds the rest and the lower new record. */
  lemma InsertBelow(x: PlayerRecord, s: seq<PlayerRecord>, tail: seq<PlayerRecord>)
    requires s != [] && SortedByPriority(s) && Priority(x.rank) < Priority(s[0].rank)
    requires SortedByPriority(tail) && multiset(tail) == multiset(s[1..]) + multiset{x}
    ensures SortedByPriority([s[0]] + tail)
    ensures multiset([s[0]] + tail) == multiset(s) + multiset{x}
  {
    assert s == [s[0]] + s[1..];
    forall k | 0 <= k < |tail|
      ensures Priority(tail[k].rank) <= Priority(s[0].rank)
    {
      assert tail[k] in multiset(tail);
      if tail[k] != x {
        assert tail[k] in s[1..];
      }
    }
  }

  /** `sort_values("rank_priority", ascending=False)`: a permutation sorted by decreasing priority. */
  function SortByPriority(s: seq<PlayerRecord>): (r: seq<PlayerRecord>)
    ensures SortedByPriority(r)
    ensures multiset(r) == multiset(s)
  {
    if s == [] then []
    else
      assert s == [s[0]] + s[1..];
      Insert(s[0], SortByPriority(s[1..]))
  }

  /**
   * `drop_duplicates(subset="puuid", keep="first")` over a list, where
   * `seen` holds the puuids already kept: the first record of every puuid
   * not yet seen, in order.
   */
  function KeepFirst(s: seq<PlayerRecord>, seen: set<string>): (r: seq<PlayerRecord>)
    ensures forall i :: 0 <= i < |r| ==> r[i].puuid !in seen
    ensures forall i, j :: 0 <= i < j < |r| ==> r[i].puuid != r[j].puuid
    ensures Puuids(r) == Puuids(s) - seen
  {
    if s == [] then []
    else if s[0].puuid in seen then KeepFirst(s[1..], seen)
    else
      var rest := KeepFirst(s[1..], seen + {s[0].puuid});
      var r := [s[0]] + rest;
      assert r[1..] == rest;
      r
  }

  /**
   * `deduplicate_player_data`: sort by decreasing priority, then keep the
   * first row of every puuid. A frame built from no rows has no `rank`
   * column, so the first lookup raises `KeyError`: `None`. Any input row
   * leaves at least one row in the index.
   */
  function Deduplicate(data: seq<PlayerRecord>): (r: Option<seq<PlayerRecord>>)
    ensures r.None? <==> data == []
    ensures r.Some? ==> r.value != []
  {
    if data == [] then None
    else
      var sorted := SortByPriority(data);
      assert sorted != [] by {
        assert |multiset(sorted)| == |multiset(data)| == |data|;
      }
      assert sorted[0].puuid in Puuids(sorted);
      Some(KeepFirst(sorted, {}))
  }

  /**
   * On a sorted list, a kept record has the highest priority of its puuid:
   * no record of that puuid ranks higher.
   */
  lemma KeepFirstKeepsHighest(s: seq<PlayerRecord>, seen: set<string>, i: nat, k: nat)
    requires SortedByPriority(s)
    requires i < |KeepFirst(s, seen)| && k < |s| && s[k].puuid == KeepFirst(s, seen)[i].puuid
    ensures Priority(s[k].rank) <= Priority(KeepFirst(s, seen)[i].rank)
  {
    var j := KeptFrom(s, seen, i);
    assert j <= k;
  }

  /** The i-th kept record is the first record of its puuid in the input. */
  lemma {:induction false} KeptFrom(s: seq<PlayerRecord>, seen: set<string>, i: nat) returns (j: nat)
    requires i < |KeepFirst(s, seen)|
    ensures j < |s| && KeepFirst(s, seen)[i] == s[j]
    ensures forall j' :: 0 <= j' < j ==> s[j'].puuid != s[j].puuid
  {
    if s[0].puuid !in seen && i == 0 {
      assert KeepFirst(s, seen) == [s[0]] + KeepFirst(s[1..], seen + {s[0].puuid});
      j := 0;
    } else {
      var seen' := if s[0].puuid in seen then seen else seen + {s[0].puuid};
      var i': int := if s[0].puuid in seen then i else i - 1;
      KeepFirstTail(s, seen, i);
      var j0 := KeptFrom(s[1..], seen', i');
      j := j0 + 1;
      FirstAfterHead(s, j0);
    }
  }

  /** A record first of its puuid in the tail, and of another puuid than the head, is first in the whole list. */
  lemma FirstAfterHead(s: seq<PlayerRecord>, j0: nat)
    requires j0 + 1 < |s| && s[0].puuid != s[j0 + 1].puuid
    requires forall j' :: 0 <= j' < j0 ==> s[1..][j'].puuid != s[1..][j0].puuid
    ensures forall j' :: 0 <= j' < j0 + 1 ==> s[j'].puuid != s[j0 + 1].puuid
  {
    forall j' | 0 < j' < j0 + 1
      ensures s[j'].puuid != s[j0 + 1].puuid
    {
      assert s[1..][j' - 1] == s[j'];
    }
  }

  /** Past the head, the i-th kept record is a record kept from the tail, with a puuid other than the head's. */
  lemma KeepFirstTail(s: seq<PlayerRecord>, seen: set<string>, i: nat)
    requires s != [] && i < |KeepFirst(s, seen)| && (s[0].puuid in seen || i > 0)
    ensures var seen' := if s[0].puuid in seen then seen else seen + {s[0].puuid};
      var i': int := if s[0].puuid in seen then i else i - 1;
      && 0 <= i' < |KeepFirst(s[1..], seen')|
      && KeepFirst(s, seen)[i] == KeepFirst(s[1..], seen')[i']
      && KeepFirst(s, seen)[i].puuid != s[0].puuid
  {
    var seen' := if s[0].puuid in seen then seen else seen + {s[0].puuid};
    var rest := KeepFirst(s[1..], seen');
    if s[0].puuid !in seen {
      assert KeepFirst(s, seen) == [s[0]] + rest;
      assert rest[i - 1].puuid !in seen';
    } else {
      assert KeepFirst(s, seen)[i].puuid !in seen;
    }
  }

  lemma {:induction false} PuuidsOfPermutation(a: seq<PlayerRecord>, b: seq<PlayerRecord>)
    requires multiset(a) == multiset(b)
    ensures Puuids(a) == Puuids(b)
  {
    PuuidsMembers(a);
    PuuidsMembers(b);
    forall p ensures p in Puuids(a) <==> p in Puuids(b) {
      if p in Puuids(a) {
        var x :| x in a && x.puuid == p;
        assert x in multiset(b);
      }
      if p in Puuids(b) {
        var x :| x in b && x.puuid == p;
        assert x in multiset(a);
      }
    }
  }

  lemma {:induction false} PuuidsMembers(s: seq<PlayerRecord>)
    ensures forall p :: p in Puuids(s) <==> exists x :: x in s && x.puuid == p
  {
    if s != [] {
      PuuidsMembers(s[1..]);
      assert s == [s[0]] + s[1..];
    }
  }

  /**
   * The player index holds no puuid twice and exactly the puuids of the
   * input.
   */
  lemma DeduplicateCoversPuuids(data: seq<PlayerRecord>)
    ensures Deduplicate(data).Some? ==>
      var out := Deduplicate(data).value;
      && (forall i, j :: 0 <= i < j < |out| ==> out[i].puuid != out[j].puuid)
      && Puuids(out) == Puuids(data)
  {
    PuuidsOfPermutation(SortByPriority(data), data);
  }

  /**
   * Every row of the player index is an input row, of the highest
   * `RANK_PRIORITY` among its puuid's input rows (which of equal rows
   * survives is left open).
   */
  lemma DeduplicateKeepsHighest(data: seq<PlayerRecord>, i: int, x: PlayerRecord)
    requires Deduplicate(data).Some? && 0 <= i < |Deduplicate(data).value|
    ensures Deduplicate(data).value[i] in data
    ensures x in data && x.puuid == Deduplicate(data).value[i].puuid ==> Priority(x.rank) <= Priority(Deduplicate(data).value[i].rank)
  {
    var sorted := SortByPriority(data);
    var out := Deduplicate(data).value;
    var j := KeptFrom(sorted, {}, i);
    assert out[i] in data by {
      assert sorted[j] in multiset(sorted);
    }
    if x in data && x.puuid == out[i].puuid {
      var k: nat :| k < |sorted| && sorted[k] == x by {
        assert x in multiset(sorted);
      }
      KeepFirstKeepsHighest(sorted, {}, i, k);
    }
  }
}
