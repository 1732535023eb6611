/** The in-memory data service: the records the screens display, the seeded
    arrays that stand in for a back end, and the look-ups over them. The
    simulated network delays are left out; every operation is a function of
    the store it reads, and none of them changes the store. */
module DataService {
  import opened Common

  datatype PoliceOfficer = PoliceOfficer(
    id: string, name: string, rank: string, email: string, phoneNumber: string,
    age: int, gender: string, description: Option<string>)

  datatype PoliceStation = PoliceStation(
    id: string, name: string, area: string, city: string, state: string,
    phoneNumber: string, officers: seq<PoliceOfficer>)

  datatype Address = Address(houseNo: string, locality: string, city: string, state: string, pinCode: string)

  datatype Civilian = Civilian(
    id: string, name: string, email: string, phoneNumber: string, address: Address,
    job: Option<string>, salary: Option<string>, isCriminal: bool)

  datatype Crime = Crime(id: string, description: string, date: string)

  /** A criminal is a civilian record extended with its list of crimes. */
  datatype Criminal = Criminal(person: Civilian, crimes: seq<Crime>)

  datatype Complaint = Complaint(id: string, officerId: string, complainantId: string, text: string, timestamp: string)

  /** A complaint as a client submits it, before the service gives it an id and a time stamp. */
  datatype ComplaintDraft = ComplaintDraft(officerId: string, complainantId: string, text: string)

  /** A partial civilian record: each present field overrides the stored one.
      `address` is replaced as a whole, as an object spread does. */
  datatype CivilianPatch = CivilianPatch(
    id: Option<string>, name: Option<string>, email: Option<string>, phoneNumber: Option<string>,
    address: Option<Address>, job: Option<string>, salary: Option<string>, isCriminal: Option<bool>)

  /** The arrays the service reads. */
  datatype Store = Store(
    stations: seq<PoliceStation>, civilians: seq<Civilian>,
    criminals: seq<Criminal>, complaints: seq<Complaint>)

  // ---------------------------------------------------------------------------
  // The seeded data

  const SeededStations: seq<PoliceStation> := [
    PoliceStation("1", "Amritapuri Police Station", "Amritapuri", "Kerala", "Kerala", "0476-123456",
      [PoliceOfficer("101", "Sarfaraz Khan", "Assistant Superintendent", "sarfarazkhan@example.com",
                     "7788665544", 26, "Male", Some("I hate crime"))]),
    PoliceStation("2", "Amritsar Central Police Station", "Preet Nagar", "Amritsar", "Punjab", "0183-987654",
      [PoliceOfficer("102", "Rajinder Singh", "Inspector", "rsingh@example.com", "9988776655", 32, "Male", None)]),
    PoliceStation("3", "Bandra Local Police Station", "Bandra", "Mumbai", "Maharashtra", "022-8765432",
      [PoliceOfficer("103", "Priya Sharma", "Sub-Inspector", "psharma@example.com", "7654321098", 29, "Female", None)]),
    PoliceStation("4", "Dwarka Mor Police Station", "Dwarka Mor", "New Delhi", "Delhi", "011-23456789",
      [PoliceOfficer("104", "Vikram Khanna", "Station House Officer", "vkhanna@example.com", "9876543210", 35, "Male", None)])
  ]

  const SeededCivilians: seq<Civilian> := [
    Civilian("201", "Manan Vohra", "mananvohra@example.com", "9911223344",
      Address("12", "Domlur", "Bangalore", "Karnataka", "560071"),
      Some("Software Engineer"), Some("1200000"), false),
    Civilian("202", "Ananya Patel", "ananya@example.com", "8877665544",
      Address("45", "Indiranagar", "Bangalore", "Karnataka", "560038"),
      Some("Doctor"), Some("1800000"), false)
  ]

  const SeededCriminals: seq<Criminal> := [
    Criminal(
      Civilian("301", "Rakesh Kumar", "rakesh@example.com", "7766554433",
        Address("7", "Malviya Nagar", "Delhi", "Delhi", "110017"), None, None, true),
      [Crime("1001", "Theft", "2023-05-15"), Crime("1002", "Assault", "2023-08-22")])
  ]

  const SeededComplaints: seq<Complaint> := [
    Complaint("401", "101", "201", "Does not arrive on time in police station", "2023-09-10T10:30:00"),
    Complaint("402", "101", "202", "Did not handle my FIR properly!", "2023-09-12T14:45:00"),
    Complaint("403", "102", "201", "Comes late for duty", "2023-09-15T09:15:00")
  ]

  const Seeded: Store := Store(SeededStations, SeededCivilians, SeededCriminals, SeededComplaints)

  // ---------------------------------------------------------------------------
  // The list getters: each returns its seeded array as it is.

  function GetPoliceStations(db: Store): (r: seq<PoliceStation>)
    ensures r == db.stations
  {
    db.stations
  }

  function GetCivilians(db: Store): (r: seq<Civilian>)
    ensures r == db.civilians
  {
    db.civilians
  }

  function GetCriminals(db: Store): (r: seq<Criminal>)
    ensures r == db.criminals
  {
    db.criminals
  }

  // ---------------------------------------------------------------------------
  // Look-ups

  /** `getPoliceStationById`: the first station with the id, or none. */
  function GetPoliceStationById(db: Store, id: string): (r: Option<PoliceStation>)
    ensures r.None? <==> forall i :: 0 <= i < |db.stations| ==> db.stations[i].id != id
    ensures r.Some? ==> exists i :: 0 <= i < |db.stations| && db.stations[i] == r.value && r.value.id == id
                           && forall j :: 0 <= j < i ==> db.stations[j].id != id
  {
    Find(db.stations, (st: PoliceStation) => st.id == id)
  }

  /** `getCivilianById`: the first civilian with the id, or none. */
  function GetCivilianById(db: Store, id: string): (r: Option<Civilian>)
    ensures r.None? <==> forall i :: 0 <= i < |db.civilians| ==> db.civilians[i].id != id
    ensures r.Some? ==> exists i :: 0 <= i < |db.civilians| && db.civilians[i] == r.value && r.value.id == id
                           && forall j :: 0 <= j < i ==> db.civilians[j].id != id
  {
    Find(db.civilians, (c: Civilian) => c.id == id)
  }

  /** `getComplaints(officerId?)`: with a non-empty officer id, exactly the
      complaints against that officer in stored order; with no id or the empty
      string (both falsy), every complaint. */
  function GetComplaints(db: Store, officerId: Option<string>): (r: seq<Complaint>)
    ensures officerId.None? || officerId.value == "" ==> r == db.complaints
    ensures officerId.Some? && officerId.value != "" ==>
              && IsSubsequence(r, db.complaints)
              && (forall i :: 0 <= i < |r| ==> r[i].officerId == officerId.value)
              && (forall i :: 0 <= i < |db.complaints| && db.complaints[i].officerId == officerId.value
                    ==> db.complaints[i] in r)
  {
    if officerId.Some? && officerId.value != "" then
      FilterIsSubsequence(db.complaints, (c: Complaint) => c.officerId == officerId.value);
      Filter(db.complaints, (c: Complaint) => c.officerId == officerId.value)
    else
      db.complaints
  }

  /** `submitComplaint`: the draft with the id and time stamp the service
      draws from the clock (here parameters). */
  function SubmitComplaint(draft: ComplaintDraft, id: string, timestamp: string): (r: Complaint)
    ensures r.officerId == draft.officerId && r.complainantId == draft.complainantId && r.text == draft.text
    ensures r.id == id && r.timestamp == timestamp
  {
    Complaint(id, draft.officerId, draft.complainantId, draft.text, timestamp)
  }

  /** `{ ...civilian, ...data }`: every field present in the patch wins. */
  function ApplyPatch(c: Civilian, p: CivilianPatch): (r: Civilian)
    ensures p.address.None? ==> r.address == c.address
    ensures p.address.Some? ==> r.address == p.address.value
    ensures p.job.Some? ==> r.job == p.job
    ensures p.job.None? ==> r.job == c.job
    ensures p.salary.Some? ==> r.salary == p.salary
    ensures p.salary.None? ==> r.salary == c.salary
    ensures p.id.None? && p.name.None? && p.email.None? && p.phoneNumber.None? ==>
              r.id == c.id && r.name == c.name && r.email == c.email && r.phoneNumber == c.phoneNumber
    ensures r.isCriminal == (if p.isCriminal.Some? then p.isCriminal.value else c.isCriminal)
  {
    Civilian(
      if p.id.Some? then p.id.value else c.id,
      if p.name.Some? then p.name.value else c.name,
      if p.email.Some? then p.email.value else c.email,
      if p.phoneNumber.Some? then p.phoneNumber.value else c.phoneNumber,
      if p.address.Some? then p.address.value else c.address,
      if p.job.Some? then p.job else c.job,
      if p.salary.Some? then p.salary else c.salary,
      if p.isCriminal.Some? then p.isCriminal.value else c.isCriminal)
  }

  const EmptyPatch := CivilianPatch(None, None, None, None, None, None, None, None)

  /** The patch `{ ...p, ...q }`: fields of `q` win over those of `p`. */
  function MergePatches(p: CivilianPatch, q: CivilianPatch): CivilianPatch
  {
    CivilianPatch(
      if q.id.Some? then q.id else p.id,
      if q.name.Some? then q.name else p.name,
      if q.email.Some? then q.email else p.email,
      if q.phoneNumber.Some? then q.phoneNumber else p.phoneNumber,
      if q.address.Some? then q.address else p.address,
      if q.job.Some? then q.job else p.job,
      if q.salary.Some? then q.salary else p.salary,
      if q.isCriminal.Some? then q.isCriminal else p.isCriminal)
  }

  /** An empty patch changes nothing, applying a patch twice is applying it
      once, and applying two patches in turn is applying their merge. */
  lemma PatchLaws(c: Civilian, p: CivilianPatch, q: CivilianPatch)
    ensures ApplyPatch(c, EmptyPatch) == c
    ensures ApplyPatch(ApplyPatch(c, p), p) == ApplyPatch(c, p)
    ensures ApplyPatch(ApplyPatch(c, p), q) == ApplyPatch(c, MergePatches(p, q))
  {
  }

  /** `updateCivilianProfile`: throws "Civilian not found" when no stored
      civilian has the id; otherwise returns the first such civilian with the
      patch applied. The store itself is a value and is never changed. */
  function UpdateCivilianProfile(db: Store, id: string, data: CivilianPatch): (r: Result<Civilian>)
    ensures r.Err? <==> forall i :: 0 <= i < |db.civilians| ==> db.civilians[i].id != id
    ensures r.Err? ==> r.message == "Civilian not found"
    ensures r.Ok? ==> exists i :: 0 <= i < |db.civilians| && db.civilians[i].id == id
                        && r.value == ApplyPatch(db.civilians[i], data)
                        && forall j :: 0 <= j < i ==> db.civilians[j].id != id
  {
    match GetCivilianById(db, id)
    case None => Err("Civilian not found")
    case Some(civilian) => Ok(ApplyPatch(civilian, data))
  }

  /** The seeded store: station, civilian and complaint ids are distinct
      within their arrays, criminal ids differ from civilian ids, the crimes
      of a record have distinct ids, officer ids are distinct across all
      stations, every complaint names an officer of some seeded station, and
      the criminal flag agrees with the array a record is seeded in. */
  lemma SeededStoreConsistent()
    ensures forall i, j :: 0 <= i < j < |Seeded.stations| ==> Seeded.stations[i].id != Seeded.stations[j].id
    ensures forall i, j :: 0 <= i < j < |Seeded.civilians| ==> Seeded.civilians[i].id != Seeded.civilians[j].id
    ensures forall i, j :: 0 <= i < |Seeded.civilians| && 0 <= j < |Seeded.criminals| ==> Seeded.civilians[i].id != Seeded.criminals[j].person.id
    ensures forall k, i, j :: 0 <= k < |Seeded.criminals| && 0 <= i < j < |Seeded.criminals[k].crimes|
              ==> Seeded.criminals[k].crimes[i].id != Seeded.criminals[k].crimes[j].id
    ensures forall i, j :: 0 <= i < j < |Seeded.complaints| ==> Seeded.complaints[i].id != Seeded.complaints[j].id
    ensures forall s1, o1, s2, o2 ::
              0 <= s1 < |Seeded.stations| && 0 <= o1 < |Seeded.stations[s1].officers| &&
              0 <= s2 < |Seeded.stations| && 0 <= o2 < |Seeded.stations[s2].officers| &&
              (s1, o1) != (s2, o2)
              ==> Seeded.stations[s1].officers[o1].id != Seeded.stations[s2].officers[o2].id
    ensures forall i :: 0 <= i < |Seeded.complaints| ==>
              exists s, o :: 0 <= s < |Seeded.stations| && 0 <= o < |Seeded.stations[s].officers|
                && Seeded.stations[s].officers[o].id == Seeded.complaints[i].officerId
    ensures forall i :: 0 <= i < |Seeded.civilians| ==> !Seeded.civilians[i].isCriminal
    ensures forall i :: 0 <= i < |Seeded.criminals| ==> Seeded.criminals[i].person.isCriminal
  {
    assert Seeded.stations[0].officers[0].id == Seeded.complaints[0].officerId;
    assert Seeded.stations[0].officers[0].id == Seeded.complaints[1].officerId;
    assert Seeded.stations[1].officers[0].id == Seeded.complaints[2].officerId;
  }
}
