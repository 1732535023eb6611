/** The complaint form: the officer named by the route is looked up among
    the officers of every station; the text is checked for content and the
    complaint handed to the data service. */
module ComplaintPage {
  import opened Common
  import opened DataService
  import opened AuthSession

  /** The officers of the given stations, station by station, each station's
      officers in their own order. */
  function Officers(ss: seq<PoliceStation>): (r: seq<PoliceOfficer>)
    ensures forall i, j :: 0 <= i < |ss| && 0 <= j < |ss[i].officers| ==> ss[i].officers[j] in r
    ensures forall k :: 0 <= k < |r| ==> exists i :: 0 <= i < |ss| && r[k] in ss[i].officers
    decreases |ss|
  {
    if ss == [] then []
    else
      var rest := Officers(ss[1..]);
      assert forall k :: 0 <= k < |rest| ==> exists i :: 0 <= i < |ss| && rest[k] in ss[i].officers by {
        forall k | 0 <= k < |rest|
          ensures exists i :: 0 <= i < |ss| && rest[k] in ss[i].officers
        {
          var i :| 0 <= i < |ss[1..]| && rest[k] in ss[1..][i].officers;
          assert ss[i + 1] == ss[1..][i];
        }
      }
      assert forall i, j :: 1 <= i < |ss| && 0 <= j < |ss[i].officers| ==> ss[i].officers[j] in rest by {
        forall i, j | 1 <= i < |ss| && 0 <= j < |ss[i].officers|
          ensures ss[i].officers[j] in rest
        {
          assert ss[i] == ss[1..][i - 1];
        }
      }
      ss[0].officers + rest
  }

  /** Flattening distributes over concatenation of station lists. */
  lemma {:induction false} OfficersAppend(a: seq<PoliceStation>, b: seq<PoliceStation>)
    ensures Officers(a + b) == Officers(a) + Officers(b)
    decreases |a|
  {
    if a == [] {
      assert a + b == b;
    } else {
      assert (a + b)[0] == a[0];
      assert (a + b)[1..] == a[1..] + b;
      OfficersAppend(a[1..], b);
    }
  }

  /** A single station contributes its officers as they are; with
      `OfficersAppend` this pins the flattening down to the concatenation of
      every station's officers, station by station. */
  lemma OfficersOfOneStation(s: PoliceStation)
    ensures Officers([s]) == s.officers
  {
    assert [s][1..] == [];
  }

  /** `stations?.flatMap(station => station.officers) || []`: nothing while
      the stations have not arrived. */
  function AllOfficers(stations: Option<seq<PoliceStation>>): (r: seq<PoliceOfficer>)
    ensures stations.None? ==> r == []
    ensures stations.Some? ==> r == Officers(stations.value)
  {
    if stations.Some? then Officers(stations.value) else []
  }

  /** The three values of `targetOfficer`: `null` for the id "new" (the
      sidebar's "/complaint/new" link, and the default when the route has no
      id), the first officer with the route's id, or `undefined` when there
      is none. */
  datatype Target = NoTarget | Found(officer: PoliceOfficer) | NotFound

  function TargetOfficer(officerId: string, stations: Option<seq<PoliceStation>>): (r: Target)
    ensures r.NoTarget? <==> officerId == "new"
    ensures r.NotFound? <==> officerId != "new" && forall k :: 0 <= k < |AllOfficers(stations)| ==> AllOfficers(stations)[k].id != officerId
    ensures r.Found? ==> r.officer.id == officerId
                         && exists k :: 0 <= k < |AllOfficers(stations)| && AllOfficers(stations)[k] == r.officer
                                        && forall j :: 0 <= j < k ==> AllOfficers(stations)[j].id != officerId
  {
    if officerId == "new" then NoTarget
    else match Find(AllOfficers(stations), (o: PoliceOfficer) => o.id == officerId)
      case Some(o) => Found(o)
      case None => NotFound
  }

  /** The heading: `File Complaint Against <name>` for a found officer,
      "File New Complaint" otherwise. */
  function Heading(target: Target): (h: string)
    ensures target.Found? ==> h == "File Complaint Against " + target.officer.name
    ensures !target.Found? ==> h == "File New Complaint"
  {
    if target.Found? then "File Complaint Against " + target.officer.name else "File New Complaint"
  }

  /** The complaint form is rendered only under a found officer; otherwise
      the page lists every officer to choose from. */
  predicate ShowsForm(target: Target)
  {
    target.Found?
  }

  /** With the officer id not found, or the "new" route, no form is shown,
      so nothing can be submitted from the page. */
  lemma NoFormWithoutOfficer(officerId: string, stations: Option<seq<PoliceStation>>)
    requires officerId == "new" || forall k :: 0 <= k < |AllOfficers(stations)| ==> AllOfficers(stations)[k].id != officerId
    ensures !ShowsForm(TargetOfficer(officerId, stations))
  {
  }

  /** What pressing "Submit" does: a toast and nothing else, or a request to
      the data service. */
  datatype SubmitAction = Rejected(notice: Toast) | Submit(draft: ComplaintDraft)

  const EmptyComplaintNotice := Toast("Error", "Please enter your complaint", true)

  /** `x || "unknown"` for a string that may be missing or empty. */
  function OrUnknown(x: Option<string>): (r: string)
    ensures x.Some? && x.value != "" ==> r == x.value
    ensures x.None? || x.value == "" ==> r == "unknown"
  {
    if x.Some? && x.value != "" then x.value else "unknown"
  }

  /** `handleSubmit`: a text that is empty or white space only is refused with
      one error toast; otherwise the draft carries the officer's id, the user's
      id (each "unknown" when missing or empty) and the text as typed, not
      trimmed. */
  function HandleSubmit(complaintText: string, target: Target, user: Option<User>): (a: SubmitAction)
    ensures a.Rejected? <==> IsBlank(complaintText)
    ensures a.Rejected? ==> a.notice == EmptyComplaintNotice
    ensures a.Submit? ==> a.draft.text == complaintText
    ensures a.Submit? ==> a.draft.officerId == OrUnknown(if target.Found? then Some(target.officer.id) else None)
    ensures a.Submit? ==> a.draft.complainantId == OrUnknown(if user.Some? then Some(user.value.id) else None)
  {
    if Trim(complaintText) == "" then Rejected(EmptyComplaintNotice)
    else Submit(ComplaintDraft(
      OrUnknown(if target.Found? then Some(target.officer.id) else None),
      OrUnknown(if user.Some? then Some(user.value.id) else None),
      complaintText))
  }

  /** The outcome of the submission as the user sees it: a toast, and a move
      to the home page on success only. */
  datatype Feedback = Feedback(notice: Toast, goHome: bool)

  function SubmitFeedback(succeeded: bool): (f: Feedback)
    ensures f.goHome <==> succeeded
    ensures f.notice.destructive <==> !succeeded
    ensures succeeded ==> f.notice == Toast("Complaint submitted", "Your complaint has been recorded successfully", false)
    ensures !succeeded ==> f.notice == Toast("Error", "Failed to submit complaint", true)
  {
    if succeeded then Feedback(Toast("Complaint submitted", "Your complaint has been recorded successfully", false), true)
    else Feedback(Toast("Error", "Failed to submit complaint", true), false)
  }

  /** End to end: a signed-in user filing a non-blank complaint against an
      officer the route names produces a stored complaint against that
      officer, from that user, with the text exactly as typed. */
  lemma FiledComplaintNamesOfficer(officerId: string, stations: seq<PoliceStation>, text: string,
                                   u: User, id: string, timestamp: string)
    requires officerId != "new" && officerId != "" && u.id != ""
    requires exists k :: 0 <= k < |Officers(stations)| && Officers(stations)[k].id == officerId
    requires !IsBlank(text)
    ensures ShowsForm(TargetOfficer(officerId, Some(stations)))
    ensures HandleSubmit(text, TargetOfficer(officerId, Some(stations)), Some(u)).Submit?
    ensures var c := SubmitComplaint(HandleSubmit(text, TargetOfficer(officerId, Some(stations)), Some(u)).draft, id, timestamp);
            c.officerId == officerId && c.complainantId == u.id && c.text == text
  {
    var k :| 0 <= k < |Officers(stations)| && Officers(stations)[k].id == officerId;
    assert AllOfficers(Some(stations))[k].id == officerId;
  }
}
