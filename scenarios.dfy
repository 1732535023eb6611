/** Whole-application consequences: the session state after a sequence of
    provider events, fed to the route guard and the menus the way the
    screens read it. */
module Scenarios {
  import opened Common
  import opened AuthSession
  import opened ProtectedRoute
  import opened Sidebar
  import HomePage

  /** What the guard decides for the current state of the session. */
  function Guard(st: AuthState, requiredRole: Option<string>): Decision
  {
    Decide(st.isLoading, st.user.Some?, st.userRole, requiredRole)
  }

  /** Two events in a row. */
  lemma RunTwo(st: AuthState, a: AuthEvent, b: AuthEvent)
    ensures Run(st, [a, b]) == Step(Step(st, a), b)
  {
    var st1 := Step(st, a);
    assert [a, b][0] == a && [a, b][1..] == [b];
    assert Run(st, [a, b]) == Run(st1, [b]);
    assert [b][0] == b && [b][1..] == [];
    assert Run(st1, [b]) == Run(Step(st1, b), []);
  }

  /** Starting with no stored session: loading ends, every guarded route
      redirects to the sign-in page, and the menu shows Home and Police
      Stations only. */
  lemma StartSignedOut()
    ensures var st := Step(Initial, BootstrapSession(GotSession(None)));
            && !st.isLoading
            && (forall i :: 0 <= i < |GuardedRoutes| ==> Guard(st, Some(GuardedRoutes[i].1)).RedirectToLogin?)
            && FilteredNavItems(st.userRole) == [HomeItem, StationsItem]
  {
    MenuWithoutRole();
  }

  /** Starting with a stored session whose profile row says "civilian": once
      the start-up fetch completes, civilian routes open, police routes
      redirect home, and the civilian menu and cards show. */
  lemma StartAsCivilian(s: Session, p: UserProfile)
    requires p.role == "civilian"
    ensures var st := Run(Initial, [BootstrapSession(GotSession(Some(s))), BootstrapProfileFetched(Row(p))]);
            && !st.isLoading && st.user == Some(s.user)
            && Guard(st, Some("civilian")) == Allow
            && Guard(st, Some("police")).RedirectToHome?
            && FilteredNavItems(st.userRole) == [HomeItem, StationsItem, ProfileItem, ComplaintItem]
            && HomePage.RenderHome(st.user.Some?, st.userRole).features
               == [HomePage.StationsFeature, HomePage.ProfileFeature, HomePage.ComplaintFeature]
  {
    RunTwo(Initial, BootstrapSession(GotSession(Some(s))), BootstrapProfileFetched(Row(p)));
    assert "civilian" != "police" by { assert "civilian"[0] != "police"[0]; }
    MenuForCivilian();
    HomePage.FeaturesForCivilian(true);
  }

  /** A stored session whose profile row does not exist: the user is signed
      in but has no role, so every guarded route redirects home and only the
      public menu items show. */
  lemma StartWithoutProfile(s: Session)
    ensures var st := Run(Initial, [BootstrapSession(GotSession(Some(s))), BootstrapProfileFetched(NoRow)]);
            && !st.isLoading && st.user.Some? && st.userRole.None?
            && (forall i :: 0 <= i < |GuardedRoutes| ==> Guard(st, Some(GuardedRoutes[i].1)).RedirectToHome?)
            && FilteredNavItems(st.userRole) == [HomeItem, StationsItem]
  {
    RunTwo(Initial, BootstrapSession(GotSession(Some(s))), BootstrapProfileFetched(NoRow));
    MenuWithoutRole();
  }

  /** A police user signs out: right after `logout` the user is still there
      without a role, so police routes redirect home; once the listener
      reports the session gone, they redirect to the sign-in page. */
  lemma SignOutAsPolice(st: AuthState)
    requires !st.isLoading && st.user.Some? && st.userRole == Some("police")
    ensures Guard(Step(st, LogoutCall(false)), Some("police")).RedirectToHome?
    ensures Guard(Run(st, [LogoutCall(false), AuthStateChange(None)]), Some("police")).RedirectToLogin?
  {
    RunTwo(st, LogoutCall(false), AuthStateChange(None));
  }
}
