/** The police station list: a case-blind search over the stations, the
    "N stations found" line, and the officer count on each card. */
module PoliceStationsPage {
  import opened Common
  import opened DataService

  /** The query occurs, ignoring case, in the station's name, area, city or state. */
  predicate StationMatches(s: PoliceStation, query: string)
  {
    || MatchesQuery(s.name, query)
    || MatchesQuery(s.area, query)
    || MatchesQuery(s.city, query)
    || MatchesQuery(s.state, query)
  }

  /** `filteredStations`: undefined while the list has not arrived;
      afterwards the stations that match. */
  function FilteredStations(stations: Option<seq<PoliceStation>>, query: string): (r: Option<seq<PoliceStation>>)
    ensures r.Some? <==> stations.Some?
    ensures stations.Some? ==>
              && |r.value| <= |stations.value|
              && (forall i :: 0 <= i < |r.value| ==> r.value[i] in stations.value && StationMatches(r.value[i], query))
              && (forall i :: 0 <= i < |stations.value| && StationMatches(stations.value[i], query)
                    ==> stations.value[i] in r.value)
  {
    match stations
    case None => None
    case Some(ss) => Some(Filter(ss, (s: PoliceStation) => StationMatches(s, query)))
  }

  /** The cards keep the order of the list. */
  lemma FilteredStationsKeepOrder(ss: seq<PoliceStation>, query: string)
    ensures IsSubsequence(FilteredStations(Some(ss), query).value, ss)
  {
    FilterIsSubsequence(ss, (s: PoliceStation) => StationMatches(s, query));
  }

  /** An empty search box lists every station. */
  lemma EmptySearchListsEveryStation(ss: seq<PoliceStation>)
    ensures FilteredStations(Some(ss), "") == Some(ss)
  {
    var p := (s: PoliceStation) => StationMatches(s, "");
    forall i | 0 <= i < |ss|
      ensures p(ss[i])
    {
      EmptyQueryMatches(ss[i].name);
    }
    FilterKeepsAll(ss, p);
  }

  /** The status line above the cards: "Loading stations..." while the list
      has not arrived, "N stations found" afterwards (the number is rendered
      by the view, the word "stations" is never singular). */
  datatype StatusLine = LoadingStations | StationsFound(count: nat)

  /** The status line counts the stations that match the query, as the
      list of cards shows them, not the stations in the list; it reports
      loading until the list arrives. */
  function Status(stations: Option<seq<PoliceStation>>, query: string): (r: StatusLine)
    ensures r.LoadingStations? <==> stations.None?
    ensures r.StationsFound? ==> r.count == |FilteredStations(stations, query).value|
    ensures r.StationsFound? ==> r.count <= |stations.value|
    ensures r.StationsFound? && r.count == 0 ==> forall i :: 0 <= i < |stations.value| ==> !StationMatches(stations.value[i], query)
    ensures r.StationsFound? && query == "" ==> r.count == |stations.value|
  {
    match FilteredStations(stations, query)
    case None => LoadingStations
    case Some(found) =>
      if query == "" then EmptySearchListsEveryStation(stations.value); StationsFound(|found|)
      else StationsFound(|found|)
  }

  /** "No police stations found matching your search." appears once the list
      has arrived and nothing matches. */
  predicate ShowsNoMatch(stations: Option<seq<PoliceStation>>, query: string)
  {
    var found := FilteredStations(stations, query);
    found.Some? && found.value == []
  }

  /** The no-match message and a zero count come together. */
  lemma NoMatchIffNoneFound(stations: Option<seq<PoliceStation>>, query: string)
    ensures ShowsNoMatch(stations, query) <==> Status(stations, query) == StationsFound(0)
  {
  }

  /** `officer${n !== 1 ? 's' : ''}`: the plural form for every count but one. */
  function OfficerNoun(n: nat): (r: string)
    ensures StartsWith(r, "officer")
    ensures r == "officers" <==> n != 1
    ensures r == "officer" <==> n == 1
  {
    "officer" + (if n != 1 then "s" else "")
  }
}
