/** The top bar: the name it greets the signed-in user with, and the menu
    button that opens and closes the navigation sidebar. */
module Navbar {
  import opened Common
  import opened AuthSession

  /** `email.split('@')[0]`: the text before the first '@', or the whole
      string when it has none. */
  function EmailUsername(email: string): (r: string)
    ensures |r| <= |email| && r == email[..|r|]
    ensures forall i :: 0 <= i < |r| ==> r[i] != '@'
    ensures |r| < |email| ==> email[|r|] == '@'
    decreases |email|
  {
    if email == [] || email[0] == '@' then []
    else [email[0]] + EmailUsername(email[1..])
  }

  /** The user name of `local@domain` is `local` whenever `local` has no '@'. */
  lemma {:induction false} EmailUsernameOf(local: string, domain: string)
    requires forall i :: 0 <= i < |local| ==> local[i] != '@'
    ensures EmailUsername(local + "@" + domain) == local
    decreases |local|
  {
    if local == [] {
      assert (local + "@" + domain)[0] == '@';
    } else {
      assert (local + "@" + domain)[0] == local[0];
      assert (local + "@" + domain)[1..] == local[1..] + "@" + domain;
      EmailUsernameOf(local[1..], domain);
    }
  }

  /** `s.charAt(0).toUpperCase() + s.slice(1)`: the first character upper-cased,
      the rest unchanged; the empty string stays empty. */
  function Capitalize(s: string): (r: string)
    ensures |r| == |s|
    ensures s != [] ==> r[0] == UpperChar(s[0]) && r[1..] == s[1..]
  {
    if s == [] then [] else [UpperChar(s[0])] + s[1..]
  }

  /** `userProfile?.display_name && userProfile.display_name.trim() !== ''`. */
  predicate HasDisplayName(profile: Option<UserProfile>)
  {
    profile.Some? && profile.value.displayName.Some? && Trim(profile.value.displayName.value) != ""
  }

  /** `user?.email`: present and non-empty. */
  predicate HasEmail(user: Option<User>)
  {
    user.Some? && user.value.email.Some? && user.value.email.value != ""
  }

  /** `getDisplayName`: the profile's display name when it is not blank;
      otherwise the part of the e-mail address before the first '@', with its
      first letter upper-cased; otherwise "User". */
  function GetDisplayName(profile: Option<UserProfile>, user: Option<User>): (r: string)
    ensures HasDisplayName(profile) ==> r == profile.value.displayName.value && !IsBlank(r)
    ensures !HasDisplayName(profile) && HasEmail(user) ==>
              var email := user.value.email.value;
              && |r| <= |email|
              && (forall i :: 0 <= i < |r| ==> r[i] != '@')
              && (|r| < |email| ==> email[|r|] == '@')
              && (r != [] ==> r[0] == UpperChar(email[0]) && r[1..] == email[1..|r|])
    ensures !HasDisplayName(profile) && !HasEmail(user) ==> r == "User"
  {
    if HasDisplayName(profile) then
      profile.value.displayName.value
    else if HasEmail(user) then
      Capitalize(EmailUsername(user.value.email.value))
    else
      "User"
  }

  /** A user without a usable display name whose address is `local@domain`
      is greeted by `local` with its first letter upper-cased. */
  lemma GreetsByLocalPart(profile: Option<UserProfile>, id: string, local: string, domain: string)
    requires !HasDisplayName(profile)
    requires local != [] && forall i :: 0 <= i < |local| ==> local[i] != '@'
    ensures GetDisplayName(profile, Some(User(id, Some(local + "@" + domain)))) == [UpperChar(local[0])] + local[1..]
  {
    EmailUsernameOf(local, domain);
  }

  /** A blank display name does not count: the greeting falls through to the
      e-mail rule, exactly as if the profile had no display name. */
  lemma BlankDisplayNameIgnored(p: UserProfile, user: Option<User>)
    requires p.displayName.Some? && IsBlank(p.displayName.value)
    ensures GetDisplayName(Some(p), user) == GetDisplayName(Some(p.(displayName := None)), user)
  {
  }

  /** The open/closed flag of the navigation sidebar, held by the page layout
      and flipped by the top bar's menu button. */
  class SidebarToggle {
    var isSidebarOpen: bool

    /** The layout starts with the sidebar closed. */
    constructor ()
      ensures !isSidebarOpen
    {
      isSidebarOpen := false;
    }

    /** `handleMenuToggle`: the flag becomes the negation of its old value. */
    method HandleMenuToggle()
      modifies this
      ensures isSidebarOpen == !old(isSidebarOpen)
    {
      isSidebarOpen := !isSidebarOpen;
    }

    /** The sidebar's close button and each of its links close it. */
    method Close()
      modifies this
      ensures !isSidebarOpen
    {
      isSidebarOpen := false;
    }
  }
}
