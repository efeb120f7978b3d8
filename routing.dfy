/**
 * Routing domains: the four regional clusters of the match API, the static
 * table from the eight platform (region) codes to them, and the split of a
 * work set into one queue per domain that each script's `main` performs with
 * `groupby` before handing every queue to its own worker.
 */
module Routing {
  import opened Wrappers
  import opened Text

  datatype RoutingDomain = Europe | Americas | Asia | Sea

  /** `MATCH_ROUTING`: platform code to routing domain. */
  const MATCH_ROUTING: map<string, RoutingDomain> := map[
    "eun1" := Europe,
    "euw1" := Europe,
    "ru" := Europe,
    "na1" := Americas,
    "br1" := Americas,
    "kr" := Asia,
    "jp" := Asia,
    "oc1" := Sea
  ]

  /** The eight platform codes. */
  const PLATFORMS: set<string> := {"eun1", "euw1", "ru", "na1", "br1", "kr", "jp", "oc1"}

  /** The table is total on the eight codes, onto the four domains, and knows no other code. */
  lemma MatchRoutingShape()
    ensures MATCH_ROUTING.Keys == PLATFORMS
    ensures |MATCH_ROUTING.Keys| == 8
    ensures MATCH_ROUTING.Values == {Europe, Americas, Asia, Sea}
  {
    assert MATCH_ROUTING["eun1"] == Europe;
    assert MATCH_ROUTING["na1"] == Americas;
    assert MATCH_ROUTING["kr"] == Asia;
    assert MATCH_ROUTING["oc1"] == Sea;
  }

  /**
   * The routing of a match: the platform prefix of its id (the part before
   * the first `_`), lower-cased and looked up in the table; no routing when
   * the prefix is not a known code (pandas `map` yields NaN and `groupby`
   * drops the row). An id without an underscore is looked up whole.
   */
  function MatchIdRouting(matchId: string): (r: Option<RoutingDomain>)
    ensures r.Some? <==> Lower(SplitHead(matchId, '_')) in PLATFORMS
    ensures '_' !in matchId ==> r == RegionRouting(Lower(matchId))
  {
    if '_' !in matchId then
      SplitHeadWhole(matchId, '_');
      RegionRouting(Lower(matchId))
    else
      RegionRouting(Lower(SplitHead(matchId, '_')))
  }

  /** The routing of a player: the lookup of its region code, defined exactly on the eight codes. */
  function RegionRouting(region: string): (r: Option<RoutingDomain>)
    ensures r.Some? <==> region in PLATFORMS
    ensures r.Some? ==> r.value == MATCH_ROUTING[region]
  {
    MatchRoutingShape();
    Get(MATCH_ROUTING, region)
  }

  /** A match id `CODE_rest` is routed by its code alone, whatever follows the underscore. */
  lemma MatchIdRoutingOfPrefix(code: string, rest: string)
    requires '_' !in code
    ensures MatchIdRouting(code + "_" + rest) == RegionRouting(Lower(code))
    ensures Lower(code) in PLATFORMS ==> MatchIdRouting(code + "_" + rest) == Some(MATCH_ROUTING[Lower(code)])
    ensures Lower(code) !in PLATFORMS ==> MatchIdRouting(code + "_" + rest) == None
  {
    SplitHeadOfJoin(code, '_', rest);
    MatchRoutingShape();
  }

  /**
   * One domain's queue: the items routed to `d`, in input order (what
   * `groupby` hands to that domain's worker).
   */
  function Queue<T>(items: seq<T>, route: T -> Option<RoutingDomain>, d: RoutingDomain): (q: seq<T>)
    ensures forall i :: 0 <= i < |q| ==> q[i] in items && route(q[i]) == Some(d)
    ensures forall i :: 0 <= i < |items| && route(items[i]) == Some(d) ==> items[i] in q
    ensures |q| <= |items|
  {
    if items == [] then []
    else
      var last := items[|items| - 1];
      Queue(items[..|items| - 1], route, d) + (if route(last) == Some(d) then [last] else [])
  }

  /** The routed part of the input: items whose routing exists. */
  function Routed<T>(items: seq<T>, route: T -> Option<RoutingDomain>): seq<T> {
    if items == [] then []
    else
      var last := items[|items| - 1];
      Routed(items[..|items| - 1], route) + (if route(last).Some? then [last] else [])
  }

  /**
   * The four queues partition the routed items: every routed item lands in
   * exactly one queue as often as it occurs in the input, and unrouted items
   * in none.
   */
  lemma {:induction false} QueuesPartition<T>(items: seq<T>, route: T -> Option<RoutingDomain>)
    ensures multiset(Queue(items, route, Europe)) + multiset(Queue(items, route, Americas))
          + multiset(Queue(items, route, Asia)) + multiset(Queue(items, route, Sea))
         == multiset(Routed(items, route))
  {
    if items != [] {
      var init, last := items[..|items| - 1], items[|items| - 1];
      QueuesPartition(init, route);
      var added := if route(last).Some? then multiset{last} else multiset{};
      assert multiset(Routed(items, route)) == multiset(Routed(init, route)) + added by {
        if route(last).Some? {
          assert Routed(items, route) == Routed(init, route) + [last];
        }
      }
      var e := QueueStep(items, route, Europe);
      var a := QueueStep(items, route, Americas);
      var s := QueueStep(items, route, Asia);
      var o := QueueStep(items, route, Sea);
      OneQueueGains(last, route, e, a, s, o);
      RegroupSums(multiset(Queue(init, route, Europe)), multiset(Queue(init, route, Americas)),
                  multiset(Queue(init, route, Asia)), multiset(Queue(init, route, Sea)), e, a, s, o);
    }
  }

  /** One new item is gained by the queue its routing names, and by no other. */
  lemma OneQueueGains<T>(last: T, route: T -> Option<RoutingDomain>, e: multiset<T>, a: multiset<T>, s: multiset<T>, o: multiset<T>)
    requires e == (if route(last) == Some(Europe) then multiset{last} else multiset{})
    requires a == (if route(last) == Some(Americas) then multiset{last} else multiset{})
    requires s == (if route(last) == Some(Asia) then multiset{last} else multiset{})
    requires o == (if route(last) == Some(Sea) then multiset{last} else multiset{})
    ensures e + a + s + o == (if route(last).Some? then multiset{last} else multiset{})
  {
    match route(last)
    case None =>
    case Some(d) =>
      match d
      case Europe =>
      case Americas =>
      case Asia =>
      case Sea =>
  }

  lemma RegroupSums<T>(m1: multiset<T>, m2: multiset<T>, m3: multiset<T>, m4: multiset<T>,
                       d1: multiset<T>, d2: multiset<T>, d3: multiset<T>, d4: multiset<T>)
    ensures (m1 + d1) + (m2 + d2) + (m3 + d3) + (m4 + d4) == (m1 + m2 + m3 + m4) + (d1 + d2 + d3 + d4)
  {
    forall x ensures ((m1 + d1) + (m2 + d2) + (m3 + d3) + (m4 + d4))[x] == ((m1 + m2 + m3 + m4) + (d1 + d2 + d3 + d4))[x] {
    }
  }

  /**
   * Extending the input by one item extends at most the queue of that
   * item's domain; `added` is what that queue gained.
   */
  lemma QueueStep<T>(items: seq<T>, route: T -> Option<RoutingDomain>, d: RoutingDomain) returns (added: multiset<T>)
    requires items != []
    ensures var last := items[|items| - 1];
      added == (if route(last) == Some(d) then multiset{last} else multiset{})
    ensures multiset(Queue(items, route, d)) == multiset(Queue(items[..|items| - 1], route, d)) + added
  {
    var last := items[|items| - 1];
    added := if route(last) == Some(d) then multiset{last} else multiset{};
  }

  /** An item goes to exactly one queue: the one its routing names. */
  lemma ExactlyOneQueue<T>(items: seq<T>, route: T -> Option<RoutingDomain>, x: T, d: RoutingDomain)
    requires x in items && route(x) == Some(d)
    ensures x in Queue(items, route, d)
    ensures forall e :: e != d ==> x !in Queue(items, route, e)
  {
  }

  ghost predicate Distinct<T>(s: seq<T>) {
    forall i, j :: 0 <= i < j < |s| ==> s[i] != s[j]
  }

  /** A queue drawn from items without repetition has none either. */
  lemma {:induction false} QueueDistinct<T>(items: seq<T>, route: T -> Option<RoutingDomain>, d: RoutingDomain)
    requires Distinct(items)
    ensures Distinct(Queue(items, route, d))
  {
    if items != [] {
      var init := items[..|items| - 1];
      QueueDistinct(init, route, d);
      var last := items[|items| - 1];
      assert last !in init;
      var q0 := Queue(init, route, d);
      assert forall i :: 0 <= i < |q0| ==> q0[i] in init;
      var q := Queue(items, route, d);
      if route(last) == Some(d) {
        assert q == q0 + [last];
      } else {
        assert q == q0;
      }
    }
  }
}
