/** The page of one police station: its personnel with the officer count,
    a "File Complaint" link per officer for civilians, and for the police a
    card listing the complaints against this station's officers. */
module PoliceStationDetailPage {
  import opened Common
  import opened DataService
  import PoliceStationsPage

  /** `enabled: !!id && userRole === "police"`. */
  predicate ComplaintsQueryEnabled(id: string, userRole: Option<string>)
  {
    id != "" && userRole == Some("police")
  }

  /** The `data` of the complaints query: every stored complaint
      (`getComplaints()` without an officer id) when the query is enabled,
      undefined otherwise. */
  function ComplaintsData(db: Store, id: string, userRole: Option<string>): (r: Option<seq<Complaint>>)
    ensures r.Some? <==> id != "" && userRole == Some("police")
    ensures r.Some? ==> r.value == db.complaints
  {
    if ComplaintsQueryEnabled(id, userRole) then Some(GetComplaints(db, None)) else None
  }

  /** Some officer of the station has the complaint's officer id. */
  predicate AgainstStation(station: PoliceStation, c: Complaint)
  {
    exists i :: 0 <= i < |station.officers| && station.officers[i].id == c.officerId
  }

  /** `complaints.filter(c => station.officers.some(o => o.id === c.officerId))`:
      exactly the complaints against an officer of this station. */
  function StationComplaints(station: PoliceStation, complaints: seq<Complaint>): (r: seq<Complaint>)
    ensures |r| <= |complaints|
    ensures forall i :: 0 <= i < |r| ==> r[i] in complaints && AgainstStation(station, r[i])
    ensures forall i :: 0 <= i < |complaints| && AgainstStation(station, complaints[i]) ==> complaints[i] in r
  {
    Filter(complaints, (c: Complaint) => Any(station.officers, (o: PoliceOfficer) => o.id == c.officerId))
  }

  /** The listed complaints keep their stored order. */
  lemma StationComplaintsKeepOrder(station: PoliceStation, complaints: seq<Complaint>)
    ensures IsSubsequence(StationComplaints(station, complaints), complaints)
  {
    FilterIsSubsequence(complaints, (c: Complaint) => Any(station.officers, (o: PoliceOfficer) => o.id == c.officerId));
  }

  /** The body of the complaints card. */
  datatype ComplaintsPanel = NoComplaintsMessage | ComplaintList(items: seq<Complaint>)

  /** `complaints && complaints.length > 0 ? <list> : <message>`: the message
      is chosen by the unfiltered list, so it appears only when nothing was
      fetched or the store holds no complaint at all. */
  function Panel(station: PoliceStation, complaints: Option<seq<Complaint>>): (r: ComplaintsPanel)
    ensures r.NoComplaintsMessage? <==> complaints.None? || complaints.value == []
    ensures r.ComplaintList? ==> r.items == StationComplaints(station, complaints.value)
  {
    if complaints.Some? && |complaints.value| > 0 then ComplaintList(StationComplaints(station, complaints.value))
    else NoComplaintsMessage
  }

  /** When complaints exist but none is against this station, the card shows
      an empty list rather than the "No complaints" message. */
  lemma EmptyListInsteadOfMessage(station: PoliceStation, complaints: seq<Complaint>)
    requires complaints != []
    requires forall i :: 0 <= i < |complaints| ==> !AgainstStation(station, complaints[i])
    ensures Panel(station, Some(complaints)) == ComplaintList([])
  {
    FilterKeepsNone(complaints, (c: Complaint) => Any(station.officers, (o: PoliceOfficer) => o.id == c.officerId));
  }

  /** What the page shows below the header once the station has loaded. */
  datatype StationView = StationView(
    personnelNoun: string,
    fileComplaintLinks: seq<string>,
    complaintsCard: Option<ComplaintsPanel>)

  /** The role-dependent parts of the page: the complaint links, one per
      officer in order, only for civilians; the complaints card only for the
      police; the personnel count pluralised for every count but one. */
  function RenderStation(station: PoliceStation, userRole: Option<string>, complaints: Option<seq<Complaint>>): (v: StationView)
    ensures v.personnelNoun == PoliceStationsPage.OfficerNoun(|station.officers|)
    ensures v.fileComplaintLinks != [] ==> userRole == Some("civilian")
    ensures userRole == Some("civilian") ==>
              |v.fileComplaintLinks| == |station.officers|
              && forall i :: 0 <= i < |station.officers| ==> v.fileComplaintLinks[i] == "/complaint/" + station.officers[i].id
    ensures v.complaintsCard.Some? <==> userRole == Some("police")
    ensures v.complaintsCard.Some? ==> v.complaintsCard.value == Panel(station, complaints)
  {
    StationView(
      PoliceStationsPage.OfficerNoun(|station.officers|),
      if userRole == Some("civilian") then seq(|station.officers|, i requires 0 <= i < |station.officers| => "/complaint/" + station.officers[i].id) else [],
      if userRole == Some("police") then Some(Panel(station, complaints)) else None)
  }

  /** The three states of the page: waiting for the station, no such
      station, or the station itself. */
  datatype DetailScreen = LoadingStation | StationNotFound | ShowStation(station: PoliceStation, view: StationView)

  /** The early returns at the top of the page: loading first, then not found. */
  function Screen(isLoadingStation: bool, station: Option<PoliceStation>, userRole: Option<string>, complaints: Option<seq<Complaint>>): (r: DetailScreen)
    ensures isLoadingStation ==> r == LoadingStation
    ensures !isLoadingStation && station.None? ==> r == StationNotFound
    ensures r.ShowStation? <==> !isLoadingStation && station.Some?
    ensures r.ShowStation? ==> r.station == station.value && r.view == RenderStation(station.value, userRole, complaints)
  {
    if isLoadingStation then LoadingStation
    else if station.None? then StationNotFound
    else ShowStation(station.value, RenderStation(station.value, userRole, complaints))
  }

  /** For a police user on a station route the card lists the stored
      complaints against this station's officers: the page fetches them all
      and filters locally. */
  lemma PoliceSeeStationComplaints(db: Store, station: PoliceStation, id: string)
    requires id != "" && db.complaints != []
    ensures RenderStation(station, Some("police"), ComplaintsData(db, id, Some("police"))).complaintsCard
         == Some(ComplaintList(StationComplaints(station, db.complaints)))
  {
  }

  /** The complaints gate as the page renders it: a list of complaints
      appears only when the query is enabled, that is for a non-empty route
      id and the police role; a police user without a route id gets the
      "No complaints" message; any other role gets no card at all. */
  lemma ComplaintsOnlyForPolice(db: Store, station: PoliceStation, id: string, userRole: Option<string>)
    ensures var card := RenderStation(station, userRole, ComplaintsData(db, id, userRole)).complaintsCard;
            && (card.Some? && card.value.ComplaintList? <==> id != "" && userRole == Some("police") && db.complaints != [])
            && (userRole == Some("police") && id == "" ==> card == Some(NoComplaintsMessage))
            && (userRole != Some("police") ==> card.None?)
  {
  }
}
