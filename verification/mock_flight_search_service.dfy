/**
 * The mock flight search: the catalogue's flights are filtered by route and the optional
 * criteria, ordered by departure time, cut to the first ten, and an empty answer is a
 * "flights not found" signal.
 */
module FlightSearch {
  import opened Wrappers
  import opened Text
  import opened Flights
  import opened NotFoundSignals

  /** At most this many flights are returned. */
  const ResultLimit := 10

  /** The search parameters: the route is required, the dates and the flight type are optional. */
  datatype SearchCriteria = SearchCriteria(
    origin: string,
    destination: string,
    departureDate: Option<string>,
    returnDate: Option<string>,
    flightType: Option<FlightType>)

  /**
   * The four filters of the pipeline: route ignoring case; departure and arrival time, ignoring
   * case, only when given; flight type only when given.
   */
  predicate Matches(f: FlightItem, c: SearchCriteria) {
    EqualsIgnoreCase(f.origin, c.origin) && EqualsIgnoreCase(f.destination, c.destination) &&
    (c.departureDate.Some? ==> EqualsIgnoreCase(f.departureDateTime, c.departureDate.value)) &&
    (c.returnDate.Some? ==> EqualsIgnoreCase(f.arrivalDateTime, c.returnDate.value)) &&
    (c.flightType.Some? ==> f.flightType == c.flightType.value)
  }

  /** Route criteria that differ only in letter case select the same flights. */
  lemma MatchesIgnoresRouteCase(f: FlightItem, c: SearchCriteria, origin: string, destination: string)
    requires EqualsIgnoreCase(c.origin, origin) && EqualsIgnoreCase(c.destination, destination)
    ensures Matches(f, c) <==> Matches(f, c.(origin := origin, destination := destination))
  {
  }

  /** The matching flights, in catalogue order; each keeps its multiplicity, the others vanish. */
  function Filter(flights: seq<FlightItem>, c: SearchCriteria): (r: seq<FlightItem>)
    ensures forall k :: 0 <= k < |r| ==> Matches(r[k], c)
    ensures forall f :: multiset(r)[f] == if Matches(f, c) then multiset(flights)[f] else 0
  {
    if flights == [] then []
    else
      assert flights == [flights[0]] + flights[1..];
      var rest := Filter(flights[1..], c);
      if Matches(flights[0], c) then [flights[0]] + rest else rest
  }

  /** `compareTo`-order on departure times. */
  predicate DepartsNoLater(f: FlightItem, g: FlightItem) {
    StrLe(f.departureDateTime, g.departureDateTime)
  }

  /** Non-decreasing departure times, pair by pair. */
  predicate SortedByDeparture(s: seq<FlightItem>) {
    forall i, j :: 0 <= i < j < |s| ==> DepartsNoLater(s[i], s[j])
  }

  /** Inserts `x` before the first flight departing no earlier, so equal times keep their order. */
  function Insert(x: FlightItem, s: seq<FlightItem>): seq<FlightItem> {
    if s == [] then [x]
    else if DepartsNoLater(x, s[0]) then [x] + s
    else [s[0]] + Insert(x, s[1..])
  }

  /** `sorted(comparing departureDateTime)`, as a stable insertion sort: ordered, and a permutation. */
  function SortByDeparture(s: seq<FlightItem>): (r: seq<FlightItem>)
    ensures SortedByDeparture(r)
    ensures multiset(r) == multiset(s)
  {
    if s == [] then []
    else
      assert s == [s[0]] + s[1..];
      InsertSpec(s[0], SortByDeparture(s[1..]));
      Insert(s[0], SortByDeparture(s[1..]))
  }

  /** Inserting keeps the sequence sorted and adds exactly `x`. */
  lemma {:induction false} InsertSpec(x: FlightItem, s: seq<FlightItem>)
    requires SortedByDeparture(s)
    ensures SortedByDeparture(Insert(x, s))
    ensures multiset(Insert(x, s)) == multiset(s) + multiset{x}
  {
    if s == [] {
    } else if DepartsNoLater(x, s[0]) {
      var r := [x] + s;
      forall i, j | 0 <= i < j < |r| ensures DepartsNoLater(r[i], r[j]) {
        if i == 0 {
          if j == 1 {
            StrLeReflexive(s[0].departureDateTime);
          }
          assert DepartsNoLater(s[0], r[j]);
          StrLeTransitive(x.departureDateTime, s[0].departureDateTime, r[j].departureDateTime);
        }
      }
      assert multiset(r) == multiset{x} + multiset(s);
    } else {
      StrLeTotal(x.departureDateTime, s[0].departureDateTime);
      assert s == [s[0]] + s[1..];
      InsertSpec(x, s[1..]);
      var t := Insert(x, s[1..]);
      var r := [s[0]] + t;
      assert multiset(r) == multiset(s) + multiset{x};
      forall i, j | 0 <= i < j < |r| ensures DepartsNoLater(r[i], r[j]) {
        if i == 0 {
          assert r[j] in multiset(t);
          assert r[j] == x || r[j] in multiset(s[1..]);
        }
      }
    }
  }

  /** `limit(10)`: the first ten, or all if fewer. */
  function Limit(s: seq<FlightItem>): (r: seq<FlightItem>)
    ensures |r| == if |s| <= ResultLimit then |s| else ResultLimit
    ensures r == s[..|r|]
    ensures |s| <= ResultLimit ==> r == s
  {
    if |s| <= ResultLimit then s else s[..ResultLimit]
  }

  /** A flight cut off by the limit departs no earlier than any kept flight. */
  lemma DroppedDepartNoEarlier(t: seq<FlightItem>, f: FlightItem)
    requires SortedByDeparture(t)
    requires multiset(Limit(t))[f] < multiset(t)[f]
    ensures forall k :: 0 <= k < |Limit(t)| ==> DepartsNoLater(Limit(t)[k], f)
  {
    var p := Limit(t);
    var n := |p|;
    assert t == p + t[n..];
    assert multiset(t) == multiset(p) + multiset(t[n..]);
    assert f in multiset(t[n..]);
    var j :| 0 <= j < |t[n..]| && t[n..][j] == f;
    assert t[n + j] == f;
    forall k | 0 <= k < n ensures DepartsNoLater(p[k], f) {
      assert p[k] == t[k];
    }
  }

  /** How many catalogue flights meet the criteria. */
  function MatchCount(catalogue: seq<FlightItem>, c: SearchCriteria): nat {
    |Filter(catalogue, c)|
  }

  /** No flight matches exactly when the filtered sequence is empty. */
  lemma FilterEmptyIff(catalogue: seq<FlightItem>, c: SearchCriteria)
    ensures Filter(catalogue, c) == [] <==> forall k :: 0 <= k < |catalogue| ==> !Matches(catalogue[k], c)
  {
    var matching := Filter(catalogue, c);
    if matching != [] {
      assert matching[0] in multiset(matching);
    }
    if exists k :: 0 <= k < |catalogue| && Matches(catalogue[k], c) {
      var k :| 0 <= k < |catalogue| && Matches(catalogue[k], c);
      assert catalogue[k] in multiset(catalogue);
      assert catalogue[k] in multiset(matching);
    }
  }

  /** The limit keeps a sorted sequence sorted and takes nothing that was not there. */
  lemma LimitOfSorted(t: seq<FlightItem>)
    requires SortedByDeparture(t)
    ensures SortedByDeparture(Limit(t))
    ensures multiset(Limit(t)) <= multiset(t)
  {
    var p := Limit(t);
    assert t == p + t[|p|..];
    assert multiset(t) == multiset(p) + multiset(t[|p|..]);
    forall i, j | 0 <= i < j < |p| ensures DepartsNoLater(p[i], p[j]) {
      assert p[i] == t[i] && p[j] == t[j];
    }
  }

  /** The flights the limit keeps are catalogue flights, in departure order. */
  lemma LimitOfSortedMatches(catalogue: seq<FlightItem>, c: SearchCriteria)
    ensures var found := Limit(SortByDeparture(Filter(catalogue, c)));
      SortedByDeparture(found) && multiset(found) <= multiset(catalogue)
  {
    var matching := Filter(catalogue, c);
    var sorted := SortByDeparture(matching);
    LimitOfSorted(sorted);
    assert multiset(matching) <= multiset(catalogue);
  }

  /**
   * A matching flight left out departs no earlier than any kept one, and nothing that matches
   * is left out when at most ten match.
   */
  lemma LimitKeepsEarliestMatches(catalogue: seq<FlightItem>, c: SearchCriteria)
    ensures var found := Limit(SortByDeparture(Filter(catalogue, c)));
      (forall f :: Matches(f, c) && multiset(found)[f] < multiset(catalogue)[f] ==>
        forall k :: 0 <= k < |found| ==> DepartsNoLater(found[k], f)) &&
      (MatchCount(catalogue, c) <= ResultLimit ==>
        forall f :: Matches(f, c) ==> multiset(found)[f] == multiset(catalogue)[f])
  {
    var matching := Filter(catalogue, c);
    var sorted := SortByDeparture(matching);
    var found := Limit(sorted);
    forall f | Matches(f, c) && multiset(found)[f] < multiset(catalogue)[f]
      ensures forall k :: 0 <= k < |found| ==> DepartsNoLater(found[k], f)
    {
      assert multiset(sorted)[f] == multiset(catalogue)[f];
      DroppedDepartNoEarlier(sorted, f);
    }
    if MatchCount(catalogue, c) <= ResultLimit {
      assert |sorted| == |matching| by {
        assert |multiset(sorted)| == |multiset(matching)|;
      }
      assert found == sorted;
    }
  }

  /**
   * `getFlightsFromSearch` over a catalogue given in its iteration order: the matching flights
   * in departure order, at most ten of them, the earliest departing; no match is a
   * "flights not found" signal.
   */
  function GetFlightsFromSearch(catalogue: seq<FlightItem>, c: SearchCriteria): (r: Result<seq<FlightItem>, NotFoundSignal>)
    ensures r.Failure? <==> forall k :: 0 <= k < |catalogue| ==> !Matches(catalogue[k], c)
    ensures r.Failure? ==> r.error == FlightsNotFound
    ensures r.Success? ==> 1 <= |r.value| <= ResultLimit
    ensures r.Success? ==>
      |r.value| == if MatchCount(catalogue, c) <= ResultLimit then MatchCount(catalogue, c) else ResultLimit
    ensures r.Success? ==> forall k :: 0 <= k < |r.value| ==> Matches(r.value[k], c)
    ensures r.Success? ==> SortedByDeparture(r.value)
    ensures r.Success? ==> multiset(r.value) <= multiset(catalogue)
    ensures r.Success? ==> forall f :: Matches(f, c) && multiset(r.value)[f] < multiset(catalogue)[f] ==>
      forall k :: 0 <= k < |r.value| ==> DepartsNoLater(r.value[k], f)
    ensures r.Success? && MatchCount(catalogue, c) <= ResultLimit ==>
      forall f :: Matches(f, c) ==> multiset(r.value)[f] == multiset(catalogue)[f]
  {
    var found := Limit(SortByDeparture(Filter(catalogue, c)));
    FilterEmptyIff(catalogue, c);
    LimitOfSortedMatches(catalogue, c);
    LimitKeepsEarliestMatches(catalogue, c);
    FoundMatch(catalogue, c);
    if |found| == 0 then Failure(FlightsNotFound) else Success(found)
  }

  /** Every flight kept matches, and as many are kept as match, up to the limit. */
  lemma FoundMatch(catalogue: seq<FlightItem>, c: SearchCriteria)
    ensures var found := Limit(SortByDeparture(Filter(catalogue, c)));
      (forall k :: 0 <= k < |found| ==> Matches(found[k], c)) &&
      |found| == (if MatchCount(catalogue, c) <= ResultLimit then MatchCount(catalogue, c) else ResultLimit)
  {
    var matching := Filter(catalogue, c);
    var sorted := SortByDeparture(matching);
    var found := Limit(sorted);
    assert |sorted| == |matching| by {
      assert |multiset(sorted)| == |multiset(matching)|;
    }
    forall k | 0 <= k < |found| ensures Matches(found[k], c) {
      assert found[k] == sorted[k];
      assert sorted[k] in multiset(matching);
    }
  }
}
