/** The session state the authentication provider component holds for the
    whole application: the signed-in user, the provider's session, the
    profile row fetched for the user, the role copied from that row, and the
    loading flag of the first session check.

    The identity provider and the profiles table are outside the model: what
    they answer (an auth-change payload, a session read, a profile query
    result, a sign-in, sign-up or sign-out outcome) is a parameter. The
    deferred and awaited calls of the source become separate events, so any
    interleaving of the auth-change listener with the first session check is
    a sequence of events. */
module AuthSession {
  import opened Common

  /** The provider's user: only the fields the application reads. */
  datatype User = User(id: string, email: Option<string>)

  /** The provider's session; a session always carries its user. */
  datatype Session = Session(user: User, accessToken: string)

  /** A row of the `profiles` table. */
  datatype UserProfile = UserProfile(
    id: string, email: string, role: string, displayName: Option<string>,
    createdAt: string, updatedAt: string)

  /** The five pieces of state the provider component holds. */
  datatype AuthState = AuthState(
    user: Option<User>, session: Option<Session>, userProfile: Option<UserProfile>,
    userRole: Option<string>, isLoading: bool)

  /** The state before anything has happened: nobody signed in, loading. */
  const Initial := AuthState(None, None, None, None, true)

  /** `session?.user ?? null`. */
  function UserOf(session: Option<Session>): Option<User>
  {
    if session.Some? then Some(session.value.user) else None
  }

  /** The role is the profile's role, and there is a role exactly when there is a profile. */
  predicate RoleMirrorsProfile(st: AuthState)
  {
    st.userRole == (if st.userProfile.Some? then Some(st.userProfile.value.role) else None)
  }

  // ---------------------------------------------------------------------------
  // Outcomes of the calls into the provider and the profiles table

  /** The profile query: an error result, no row, a row, or an exception. */
  datatype FetchOutcome = FetchFailed(message: string) | NoRow | Row(profile: UserProfile) | FetchThrew

  /** Reading the stored session at start-up: it throws, or gives a session or none. */
  datatype GetSessionOutcome = GetSessionThrew | GotSession(session: Option<Session>)

  /** A sign-in or sign-up call: an error result, a data result (with or
      without a user), or an exception. */
  datatype AuthCallOutcome = CallError(message: string) | CallData(user: Option<User>) | CallThrew

  /** What a sign-in or sign-up operation returns and the toasts it emits. */
  datatype CallResult = CallResult(ok: bool, notices: seq<Toast>)

  /** Everything that can happen to the session state, one step at a time. */
  datatype AuthEvent =
    | AuthStateChange(session: Option<Session>)         // the listener's callback
    | ProfileFetched(outcome: FetchOutcome)             // a deferred profile fetch completes
    | BootstrapSession(got: GetSessionOutcome)          // the start-up check up to its profile fetch
    | BootstrapProfileFetched(outcome: FetchOutcome)    // the start-up check's awaited fetch completes
    | LoginCall(signIn: AuthCallOutcome)
    | RegisterCall(signUp: AuthCallOutcome)
    | LogoutCall(signOutThrew: bool)

  // ---------------------------------------------------------------------------
  // Transitions

  /** The auth-change listener: the session and user always follow the
      payload; without a user, profile and role are cleared at once; with a
      user, they are left for the deferred fetch. */
  function OnAuthStateChange(st: AuthState, session: Option<Session>): (r: AuthState)
    ensures r.session == session && r.user == UserOf(session)
    ensures session.None? ==> r.userProfile.None? && r.userRole.None?
    ensures session.Some? ==> r.userProfile == st.userProfile && r.userRole == st.userRole
    ensures r.isLoading == st.isLoading
  {
    var r := st.(session := session, user := UserOf(session));
    if session.Some? then r else r.(userProfile := None, userRole := None)
  }

  /** A profile fetch result: only a row changes anything, and it sets
      profile and role together. An error, an exception or a missing row
      leave every field as it was: no profile is created, and the result is
      applied whichever user is signed in by then. */
  function ApplyFetch(st: AuthState, outcome: FetchOutcome): (r: AuthState)
    ensures outcome.Row? ==> r.userProfile == Some(outcome.profile) && r.userRole == Some(outcome.profile.role)
    ensures outcome.Row? ==> r.user == st.user && r.session == st.session && r.isLoading == st.isLoading
    ensures !outcome.Row? ==> r == st
  {
    match outcome
    case Row(p) => st.(userProfile := Some(p), userRole := Some(p.role))
    case _ => st
  }

  /** The start-up check up to its await: an exception ends loading at once;
      otherwise session and user follow the stored session, and loading ends
      at once unless a profile fetch for the user is still to come. */
  function BeginBootstrap(st: AuthState, got: GetSessionOutcome): (r: AuthState)
    ensures got.GetSessionThrew? ==> r == st.(isLoading := false)
    ensures got.GotSession? ==> r.session == got.session && r.user == UserOf(got.session)
    ensures r.userProfile == st.userProfile && r.userRole == st.userRole
    ensures r.isLoading <==> st.isLoading && got.GotSession? && got.session.Some?
  {
    match got
    case GetSessionThrew => st.(isLoading := false)
    case GotSession(s) =>
      var r := st.(session := s, user := UserOf(s));
      if s.Some? then r else r.(isLoading := false)
  }

  /** The start-up check after its awaited fetch: the fetch result applies and loading ends. */
  function FinishBootstrap(st: AuthState, outcome: FetchOutcome): (r: AuthState)
    ensures !r.isLoading
    ensures r.user == st.user && r.session == st.session
    ensures r.(isLoading := st.isLoading) == ApplyFetch(st, outcome)
  {
    ApplyFetch(st, outcome).(isLoading := false)
  }

  /** `logout`: when signing out does not throw, profile and role are
      cleared; user and session are left to the listener. When it throws,
      nothing changes. */
  function AfterLogout(st: AuthState, signOutThrew: bool): (r: AuthState)
    ensures signOutThrew ==> r == st
    ensures !signOutThrew ==> r.userProfile.None? && r.userRole.None?
    ensures r.user == st.user && r.session == st.session && r.isLoading == st.isLoading
  {
    if signOutThrew then st else st.(userProfile := None, userRole := None)
  }

  /** One event applied to the state. Signing in and registering change
      nothing here: the provider reports the new session through the listener. */
  function Step(st: AuthState, e: AuthEvent): (r: AuthState)
    ensures r.isLoading <==> st.isLoading && !EndsLoading(e)
    ensures !e.AuthStateChange? && !e.BootstrapSession? ==> r.user == st.user && r.session == st.session
    ensures e.LoginCall? || e.RegisterCall? ==> r == st
  {
    match e
    case AuthStateChange(s) => OnAuthStateChange(st, s)
    case ProfileFetched(o) => ApplyFetch(st, o)
    case BootstrapSession(got) => BeginBootstrap(st, got)
    case BootstrapProfileFetched(o) => FinishBootstrap(st, o)
    case LoginCall(_) => st
    case RegisterCall(_) => st
    case LogoutCall(threw) => AfterLogout(st, threw)
  }

  /** The events applied in order. */
  function Run(st: AuthState, events: seq<AuthEvent>): (r: AuthState)
    ensures r.isLoading ==> st.isLoading
    ensures events == [] ==> r == st
    decreases |events|
  {
    if events == [] then st else Run(Step(st, events[0]), events[1..])
  }

  /** The events after which loading is over. */
  predicate EndsLoading(e: AuthEvent)
  {
    || e.BootstrapProfileFetched?
    || (e.BootstrapSession? && (e.got.GetSessionThrew? || e.got.session.None?))
  }

  // ---------------------------------------------------------------------------
  // Toasts

  /** The toast of a sign-in or sign-up call that threw. */
  const UnexpectedErrorNotice := Toast("Error", "An unexpected error occurred. Please try again.", true)

  /** `login`: true only when there is no error and a user came back; a
      single toast, except when the call returned neither error nor user,
      which fails silently. Failures are destructive toasts. */
  function LoginResult(o: AuthCallOutcome): (r: CallResult)
    ensures r.ok <==> o.CallData? && o.user.Some?
    ensures |r.notices| == (if o == CallData(None) then 0 else 1)
    ensures r.ok ==> r.notices == [Toast("Success", "You have successfully logged in", false)]
    ensures o.CallError? ==> r.notices == [Toast("Login failed", o.message, true)]
    ensures o.CallThrew? ==> r.notices == [UnexpectedErrorNotice]
    ensures forall i :: 0 <= i < |r.notices| ==> r.notices[i].destructive == !r.ok
  {
    match o
    case CallError(message) => CallResult(false, [Toast("Login failed", message, true)])
    case CallData(user) =>
      if user.Some? then CallResult(true, [Toast("Success", "You have successfully logged in", false)])
      else CallResult(false, [])
    case CallThrew => CallResult(false, [UnexpectedErrorNotice])
  }

  /** `register`: the same discipline as `login`; success asks the user to
      confirm the e-mail address. */
  function RegisterResult(o: AuthCallOutcome): (r: CallResult)
    ensures r.ok <==> o.CallData? && o.user.Some?
    ensures |r.notices| == (if o == CallData(None) then 0 else 1)
    ensures r.ok ==> r.notices == [Toast("Registration successful", "Please check your email to confirm your account", false)]
    ensures o.CallError? ==> r.notices == [Toast("Registration failed", o.message, true)]
    ensures o.CallThrew? ==> r.notices == [UnexpectedErrorNotice]
    ensures forall i :: 0 <= i < |r.notices| ==> r.notices[i].destructive == !r.ok
  {
    match o
    case CallError(message) => CallResult(false, [Toast("Registration failed", message, true)])
    case CallData(user) =>
      if user.Some? then CallResult(true, [Toast("Registration successful", "Please check your email to confirm your account", false)])
      else CallResult(false, [])
    case CallThrew => CallResult(false, [UnexpectedErrorNotice])
  }

  /** `logout`: always exactly one toast, destructive exactly when signing out threw. */
  function LogoutNotice(signOutThrew: bool): (t: Toast)
    ensures t.destructive == signOutThrew
    ensures signOutThrew ==> t == Toast("Error", "An error occurred during logout", true)
    ensures !signOutThrew ==> t == Toast("Logged out", "You have been successfully logged out", false)
  {
    if signOutThrew then Toast("Error", "An error occurred during logout", true)
    else Toast("Logged out", "You have been successfully logged out", false)
  }

  /** The toasts an event emits. */
  function Notices(e: AuthEvent): seq<Toast>
  {
    match e
    case LoginCall(o) => LoginResult(o).notices
    case RegisterCall(o) => RegisterResult(o).notices
    case LogoutCall(threw) => [LogoutNotice(threw)]
    case _ => []
  }

  /** The toasts a sequence of events emits, in order. */
  function RunNotices(events: seq<AuthEvent>): seq<Toast>
    decreases |events|
  {
    if events == [] then [] else Notices(events[0]) + RunNotices(events[1..])
  }

  // ---------------------------------------------------------------------------
  // Properties of the transitions

  /** Every single event keeps role and profile in step. */
  lemma StepKeepsRoleMirror(st: AuthState, e: AuthEvent)
    requires RoleMirrorsProfile(st)
    ensures RoleMirrorsProfile(Step(st, e))
  {
  }

  /** Whatever the events and their order, role and profile stay in step. */
  lemma {:induction false} RunKeepsRoleMirror(st: AuthState, events: seq<AuthEvent>)
    requires RoleMirrorsProfile(st)
    ensures RoleMirrorsProfile(Run(st, events))
    decreases |events|
  {
    if events != [] {
      StepKeepsRoleMirror(st, events[0]);
      RunKeepsRoleMirror(Step(st, events[0]), events[1..]);
    }
  }

  /** Loading is still on after a run exactly when it was on before and no
      event of the run ended it: nothing ever turns it back on. */
  lemma {:induction false} RunLoading(st: AuthState, events: seq<AuthEvent>)
    ensures Run(st, events).isLoading <==> st.isLoading && forall i :: 0 <= i < |events| ==> !EndsLoading(events[i])
    decreases |events|
  {
    if events != [] {
      RunLoading(Step(st, events[0]), events[1..]);
      assert forall i :: 1 <= i < |events| ==> events[i] == events[1..][i - 1];
    }
  }

  /** The identity transitions that reach the state: the last auth-change or
      start-up session wins for the user and the session. */
  lemma {:induction false} RunSessionFollowsLastReport(st: AuthState, events: seq<AuthEvent>, s: Option<Session>, rest: seq<AuthEvent>)
    requires events == [AuthStateChange(s)] + rest
    requires forall i :: 0 <= i < |rest| ==> !rest[i].AuthStateChange? && !rest[i].BootstrapSession?
    ensures Run(st, events).session == s && Run(st, events).user == UserOf(s)
  {
    UserAndSessionKept(Step(st, events[0]), rest);
    assert events[1..] == rest;
  }

  /** Events other than auth changes and the start-up session read leave user and session alone. */
  lemma {:induction false} UserAndSessionKept(st: AuthState, events: seq<AuthEvent>)
    requires forall i :: 0 <= i < |events| ==> !events[i].AuthStateChange? && !events[i].BootstrapSession?
    ensures Run(st, events).session == st.session && Run(st, events).user == st.user
    decreases |events|
  {
    if events != [] {
      UserAndSessionKept(Step(st, events[0]), events[1..]);
    }
  }

  /** Each login, registration and logout emits at most one toast, and the
      other events emit none: a run emits no more toasts than it has calls. */
  lemma {:induction false} RunNoticesBound(events: seq<AuthEvent>)
    ensures |RunNotices(events)| <= |Filter(events, IsUserCall)|
    decreases |events|
  {
    if events != [] {
      RunNoticesBound(events[1..]);
    }
  }

  /** The events a user triggers directly. */
  predicate IsUserCall(e: AuthEvent)
  {
    e.LoginCall? || e.RegisterCall? || e.LogoutCall?
  }

  /** A logout that succeeds twice in a row clears nothing further the second
      time and still emits its one toast. */
  lemma LogoutTwice(st: AuthState)
    ensures Run(st, [LogoutCall(false), LogoutCall(false)]) == Run(st, [LogoutCall(false)])
    ensures RunNotices([LogoutCall(false), LogoutCall(false)]) == [LogoutNotice(false), LogoutNotice(false)]
  {
    assert [LogoutCall(false), LogoutCall(false)][1..] == [LogoutCall(false)];
  }

  /** A profile fetch that completes after the user has signed out still
      installs its row: the state then has a profile and a role but no user. */
  lemma LateFetchAfterSignOut(s: Session, p: UserProfile)
    ensures var st := Run(Initial, [AuthStateChange(Some(s)), AuthStateChange(None), ProfileFetched(Row(p))]);
            st.user.None? && st.session.None? && st.userProfile == Some(p) && st.userRole == Some(p.role)
  {
    var evs := [AuthStateChange(Some(s)), AuthStateChange(None), ProfileFetched(Row(p))];
    var st1 := Step(Initial, evs[0]);
    var st2 := Step(st1, evs[1]);
    var st3 := Step(st2, evs[2]);
    assert Run(st2, evs[2..]) == st3 by { assert evs[2..][1..] == []; }
    assert Run(st1, evs[1..]) == st3 by { assert evs[1..][1..] == evs[2..]; }
  }

  /** A successful logout leaves the user signed in as far as this state is
      concerned until the listener reports the end of the session. */
  lemma LogoutKeepsUserUntilListener(st: AuthState, u: User)
    requires st.user == Some(u)
    ensures Run(st, [LogoutCall(false)]).user == Some(u)
    ensures Run(st, [LogoutCall(false), AuthStateChange(None)]).user.None?
  {
    assert [LogoutCall(false), AuthStateChange(None)][1..] == [AuthStateChange(None)];
  }

  /** `useAuth`: the context, or an error outside the provider. */
  function UseAuth(context: Option<AuthState>): (r: Result<AuthState>)
    ensures r.Err? <==> context.None?
    ensures r.Err? ==> r.message == "useAuth must be used within an AuthProvider"
    ensures r.Ok? ==> r.value == context.value
  {
    if context.None? then Err("useAuth must be used within an AuthProvider") else Ok(context.value)
  }

  // ---------------------------------------------------------------------------
  // The provider component

  /** The provider's state hooks as fields, and the toasts it has emitted.
      Each method is one handler of the source; its outcome from the
      provider or the table is a parameter. */
  class AuthProvider {
    var user: Option<User>
    var session: Option<Session>
    var userProfile: Option<UserProfile>
    var userRole: Option<string>
    var isLoading: bool
    var notices: seq<Toast>

    /** The fields as one value. */
    function State(): AuthState
      reads this
    {
      AuthState(user, session, userProfile, userRole, isLoading)
    }

    ghost predicate Valid()
      reads this
    {
      RoleMirrorsProfile(State())
    }

    /** The initial state of the hooks. */
    constructor ()
      ensures Valid() && State() == Initial && notices == []
    {
      user, session, userProfile, userRole, isLoading := None, None, None, None, true;
      notices := [];
    }

    /** The auth-change callback. Returns the id of the user whose profile is
        to be fetched once the callback has returned, if there is one. */
    method OnAuthStateChange(currentSession: Option<Session>) returns (deferredFetch: Option<string>)
      requires Valid()
      modifies this
      ensures Valid()
      ensures State() == Step(old(State()), AuthStateChange(currentSession))
      ensures notices == old(notices)
      ensures deferredFetch == (if currentSession.Some? then Some(currentSession.value.user.id) else None)
    {
      session := currentSession;
      user := UserOf(currentSession);
      if currentSession.Some? {
        deferredFetch := Some(currentSession.value.user.id);
      } else {
        deferredFetch := None;
        userProfile := None;
        userRole := None;
      }
    }

    /** `fetchUserProfile(userId)`: the query for `userId` gave `outcome`.
        Nothing compares `userId` with the user signed in now. */
    method FetchUserProfile(userId: string, outcome: FetchOutcome)
      requires Valid()
      modifies this
      ensures Valid()
      ensures State() == Step(old(State()), ProfileFetched(outcome))
      ensures notices == old(notices)
    {
      match outcome {
        case FetchFailed(_) =>
        case FetchThrew =>
        case NoRow =>
        case Row(data) =>
          userProfile := Some(data);
          userRole := Some(data.role);
      }
    }

    /** `initializeAuth` up to its awaited fetch. Returns the id of the user
        whose profile the check now awaits, if there is one; the check then
        ends with `CompleteInitializeAuth`. */
    method InitializeAuth(got: GetSessionOutcome) returns (awaitedFetch: Option<string>)
      requires Valid()
      modifies this
      ensures Valid()
      ensures State() == Step(old(State()), BootstrapSession(got))
      ensures notices == old(notices)
      ensures awaitedFetch == (if got.GotSession? && got.session.Some? then Some(got.session.value.user.id) else None)
    {
      match got {
        case GetSessionThrew =>
          isLoading := false;
          awaitedFetch := None;
        case GotSession(existingSession) =>
          session := existingSession;
          user := UserOf(existingSession);
          if existingSession.Some? {
            awaitedFetch := Some(existingSession.value.user.id);
          } else {
            awaitedFetch := None;
            isLoading := false;
          }
      }
    }

    /** `initializeAuth` after its awaited fetch for `userId` gave `outcome`. */
    method CompleteInitializeAuth(userId: string, outcome: FetchOutcome)
      requires Valid()
      modifies this
      ensures Valid()
      ensures State() == Step(old(State()), BootstrapProfileFetched(outcome))
      ensures !isLoading
      ensures notices == old(notices)
    {
      FetchUserProfile(userId, outcome);
      isLoading := false;
    }

    /** `login`: the sign-in call gave `signIn`. */
    method Login(email: string, password: string, signIn: AuthCallOutcome) returns (ok: bool)
      requires Valid()
      modifies this`notices
      ensures ok == LoginResult(signIn).ok
      ensures notices == old(notices) + Notices(LoginCall(signIn))
    {
      match signIn {
        case CallError(message) =>
          notices := notices + [Toast("Login failed", message, true)];
          ok := false;
        case CallData(u) =>
          if u.Some? {
            notices := notices + [Toast("Success", "You have successfully logged in", false)];
            ok := true;
          } else {
            ok := false;
          }
        case CallThrew =>
          notices := notices + [UnexpectedErrorNotice];
          ok := false;
      }
    }

    /** `register`: the sign-up call, which carries the role and display name
        as user metadata, gave `signUp`. */
    method Register(email: string, password: string, role: string, displayName: Option<string>, signUp: AuthCallOutcome)
      returns (ok: bool)
      requires Valid()
      modifies this`notices
      ensures ok == RegisterResult(signUp).ok
      ensures notices == old(notices) + Notices(RegisterCall(signUp))
    {
      match signUp {
        case CallError(message) =>
          notices := notices + [Toast("Registration failed", message, true)];
          ok := false;
        case CallData(u) =>
          if u.Some? {
            notices := notices + [Toast("Registration successful", "Please check your email to confirm your account", false)];
            ok := true;
          } else {
            ok := false;
          }
        case CallThrew =>
          notices := notices + [UnexpectedErrorNotice];
          ok := false;
      }
    }

    /** `logout`: the sign-out call threw or not. */
    method Logout(signOutThrew: bool)
      requires Valid()
      modifies this
      ensures Valid()
      ensures State() == Step(old(State()), LogoutCall(signOutThrew))
      ensures notices == old(notices) + Notices(LogoutCall(signOutThrew))
    {
      if !signOutThrew {
        userProfile := None;
        userRole := None;
        notices := notices + [Toast("Logged out", "You have been successfully logged out", false)];
      } else {
        notices := notices + [Toast("Error", "An error occurred during logout", true)];
      }
    }
  }

  /** A start-up with no stored session followed by a sign-in, the listener's
      report and the profile row, driven through the provider's handlers. */
  method SignInScenario(s: Session, p: UserProfile) returns (auth: AuthProvider)
    ensures auth.user == Some(s.user) && auth.userRole == Some(p.role) && !auth.isLoading
    ensures |auth.notices| == 1 && !auth.notices[0].destructive
  {
    auth := new AuthProvider();
    var pending := auth.InitializeAuth(GotSession(None));
    var ok := auth.Login("civilian@example.com", "password123", CallData(Some(s.user)));
    pending := auth.OnAuthStateChange(Some(s));
    auth.FetchUserProfile(pending.value, Row(p));
  }
}
