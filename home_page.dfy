/** The home page: a constant list of feature cards, some restricted to one
    role, filtered by the signed-in user's role, plus the sign-in buttons and
    the welcome block, each shown under its own condition. */
module HomePage {
  import opened Common

  datatype Feature = Feature(title: string, href: string, restricted: Option<string>)

  const StationsFeature := Feature("Police Stations", "/police-stations", None)
  const CivilianDatabaseFeature := Feature("Civilian Database", "/civilian-database", Some("police"))
  const CriminalDatabaseFeature := Feature("Criminal Database", "/criminal-database", Some("police"))
  const ProfileFeature := Feature("My Profile", "/civilian-profile", Some("civilian"))
  const ComplaintFeature := Feature("File Complaint", "/complaint/new", Some("civilian"))

  const Features: seq<Feature> :=
    [StationsFeature, CivilianDatabaseFeature, CriminalDatabaseFeature, ProfileFeature, ComplaintFeature]

  /** `!feature.restricted || feature.restricted === userRole`. */
  predicate ShowsFeature(f: Feature, userRole: Option<string>)
  {
    f.restricted.None? || f.restricted.value == "" || f.restricted == userRole
  }

  /** What the page shows for a user and role. */
  datatype HomeView = HomeView(loginButtons: bool, features: seq<Feature>, welcome: bool)

  /** The page: the sign-in buttons exactly when nobody is signed in, the
      welcome block exactly when a user with a non-empty role is, and the
      feature cards the role may see, in order. */
  function RenderHome(hasUser: bool, userRole: Option<string>): (v: HomeView)
    ensures v.loginButtons <==> !hasUser
    ensures v.welcome <==> hasUser && userRole.Some? && userRole.value != ""
    ensures !(v.loginButtons && v.welcome)
    ensures forall i :: 0 <= i < |Features| ==> (Features[i] in v.features <==> ShowsFeature(Features[i], userRole))
    ensures StationsFeature in v.features
  {
    HomeView(!hasUser, Filter(Features, (f: Feature) => ShowsFeature(f, userRole)),
             hasUser && userRole.Some? && userRole.value != "")
  }

  /** The cards keep the order of the feature list. */
  lemma CardsKeepOrder(hasUser: bool, userRole: Option<string>)
    ensures IsSubsequence(RenderHome(hasUser, userRole).features, Features)
  {
    FilterIsSubsequence(Features, (f: Feature) => ShowsFeature(f, userRole));
  }

  /** Filtering the feature list with any verdict: each card contributes
      itself or nothing, in page order. */
  lemma {:induction false} FilterFeatures(p: Feature -> bool)
    ensures Filter(Features, p) == Keep(StationsFeature, p) + (Keep(CivilianDatabaseFeature, p)
      + (Keep(CriminalDatabaseFeature, p) + (Keep(ProfileFeature, p) + Keep(ComplaintFeature, p))))
  {
    var s := Features;
    FilterStep(s[4..], p); assert s[4..][1..] == [];
    assert Filter(s[4..], p) == Keep(s[4], p);
    FilterStep(s[3..], p); assert s[3..][1..] == s[4..];
    assert Filter(s[3..], p) == Keep(s[3], p) + Keep(s[4], p);
    FilterStep(s[2..], p); assert s[2..][1..] == s[3..];
    assert Filter(s[2..], p) == Keep(s[2], p) + (Keep(s[3], p) + Keep(s[4], p));
    FilterStep(s[1..], p); assert s[1..][1..] == s[2..];
    assert Filter(s[1..], p) == Keep(s[1], p) + (Keep(s[2], p) + (Keep(s[3], p) + Keep(s[4], p)));
    FilterStep(s, p);
  }

  /** Without a role only the Police Stations card shows. */
  lemma FeaturesWithoutRole(hasUser: bool)
    ensures RenderHome(hasUser, None).features == [StationsFeature]
  {
    FilterFeatures((f: Feature) => ShowsFeature(f, None));
  }

  /** The police see Police Stations, Civilian Database and Criminal Database, in that order. */
  lemma FeaturesForPolice(hasUser: bool)
    ensures RenderHome(hasUser, Some("police")).features == [StationsFeature, CivilianDatabaseFeature, CriminalDatabaseFeature]
  {
    assert "police" != "civilian" by { assert "police"[0] != "civilian"[0]; }
    FilterFeatures((f: Feature) => ShowsFeature(f, Some("police")));
  }

  /** Civilians see Police Stations, My Profile and File Complaint, in that order. */
  lemma FeaturesForCivilian(hasUser: bool)
    ensures RenderHome(hasUser, Some("civilian")).features == [StationsFeature, ProfileFeature, ComplaintFeature]
  {
    assert "civilian" != "police" by { assert "civilian"[0] != "police"[0]; }
    FilterFeatures((f: Feature) => ShowsFeature(f, Some("civilian")));
  }
}
