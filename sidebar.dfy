/** The navigation sidebar: a constant list of menu items, some of them
    restricted to a list of roles, filtered by the signed-in user's role on
    every render. */
module Sidebar {
  import opened Common

  datatype NavItem = NavItem(title: string, href: string, roles: Option<seq<string>>)

  const HomeItem := NavItem("Home", "/", None)
  const StationsItem := NavItem("Police Stations", "/police-stations", None)
  const CivilianDatabaseItem := NavItem("Civilian Database", "/civilian-database", Some(["police"]))
  const CriminalDatabaseItem := NavItem("Criminal Database", "/criminal-database", Some(["police"]))
  const ProfileItem := NavItem("My Profile", "/civilian-profile", Some(["civilian"]))
  const ComplaintItem := NavItem("File Complaint", "/complaint/new", Some(["civilian"]))

  const NavItems: seq<NavItem> :=
    [HomeItem, StationsItem, CivilianDatabaseItem, CriminalDatabaseItem, ProfileItem, ComplaintItem]

  /** `!item.roles || (userRole && item.roles.includes(userRole))`: an item
      without a role list is for everyone; one with a list needs a non-empty
      role that the list contains. */
  predicate ShowsItem(item: NavItem, userRole: Option<string>)
  {
    item.roles.None? || (userRole.Some? && userRole.value != "" && userRole.value in item.roles.value)
  }

  /** `filteredNavItems`: the items the role may see, in menu order. */
  function FilteredNavItems(userRole: Option<string>): (r: seq<NavItem>)
    ensures forall i :: 0 <= i < |NavItems| ==> (NavItems[i] in r <==> ShowsItem(NavItems[i], userRole))
    ensures forall i :: 0 <= i < |NavItems| && NavItems[i].roles.None? ==> NavItems[i] in r
    ensures forall i :: 0 <= i < |r| ==> r[i].roles.None? || (userRole.Some? && userRole.value in r[i].roles.value)
  {
    Filter(NavItems, (item: NavItem) => ShowsItem(item, userRole))
  }

  /** The menu keeps the order of the item list. */
  lemma MenuKeepsOrder(userRole: Option<string>)
    ensures IsSubsequence(FilteredNavItems(userRole), NavItems)
  {
    FilterIsSubsequence(NavItems, (item: NavItem) => ShowsItem(item, userRole));
  }

  /** Filtering the item list with any verdict: each item contributes itself
      or nothing, in menu order. */
  lemma {:induction false} FilterNavItems(p: NavItem -> bool)
    ensures Filter(NavItems, p) == Keep(HomeItem, p) + (Keep(StationsItem, p) + (Keep(CivilianDatabaseItem, p)
      + (Keep(CriminalDatabaseItem, p) + (Keep(ProfileItem, p) + Keep(ComplaintItem, p)))))
  {
    var s := NavItems;
    FilterStep(s[5..], p); assert s[5..][1..] == [];
    assert Filter(s[5..], p) == Keep(s[5], p);
    FilterStep(s[4..], p); assert s[4..][1..] == s[5..];
    assert Filter(s[4..], p) == Keep(s[4], p) + Keep(s[5], p);
    FilterStep(s[3..], p); assert s[3..][1..] == s[4..];
    assert Filter(s[3..], p) == Keep(s[3], p) + (Keep(s[4], p) + Keep(s[5], p));
    FilterStep(s[2..], p); assert s[2..][1..] == s[3..];
    assert Filter(s[2..], p) == Keep(s[2], p) + (Keep(s[3], p) + (Keep(s[4], p) + Keep(s[5], p)));
    FilterStep(s[1..], p); assert s[1..][1..] == s[2..];
    assert Filter(s[1..], p) == Keep(s[1], p) + (Keep(s[2], p) + (Keep(s[3], p) + (Keep(s[4], p) + Keep(s[5], p))));
    FilterStep(s, p);
  }

  /** Without a role (signed out, or no profile yet) the menu is Home and Police Stations. */
  lemma MenuWithoutRole()
    ensures FilteredNavItems(None) == [HomeItem, StationsItem]
  {
    FilterNavItems((item: NavItem) => ShowsItem(item, None));
  }

  /** The police menu: Home, Police Stations and the two databases. */
  lemma MenuForPolice()
    ensures FilteredNavItems(Some("police")) == [HomeItem, StationsItem, CivilianDatabaseItem, CriminalDatabaseItem]
  {
    assert "police" != "civilian" by { assert "police"[0] != "civilian"[0]; }
    FilterNavItems((item: NavItem) => ShowsItem(item, Some("police")));
  }

  /** The civilian menu: Home, Police Stations, My Profile and File Complaint. */
  lemma MenuForCivilian()
    ensures FilteredNavItems(Some("civilian")) == [HomeItem, StationsItem, ProfileItem, ComplaintItem]
  {
    assert "civilian" != "police" by { assert "civilian"[0] != "police"[0]; }
    FilterNavItems((item: NavItem) => ShowsItem(item, Some("civilian")));
  }
}
