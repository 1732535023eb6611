# Police Management System — a Dafny model of its decision core

The Police Management System is a React application. Police officers and
civilians sign in. They browse police stations, search civilian and
criminal records, file complaints against officers, and edit their own
civilian profile. Its screens sit on top of two services:

- an authentication provider that keeps the signed-in user, the session,
  the user's profile row and its role;
- a small in-memory data service holding seeded stations, officers,
  civilians, criminals and complaints.

This project models the parts of the application that decide things:

- **Session state** (`auth_session.dfy`). The provider's five state fields
  form a class, `AuthSession.AuthProvider`, with one method per handler.
  The same transitions also exist as functions over an `AuthState` value,
  so that sequences of events can be reasoned about (`Step`, `Run`).
  Every outcome the remote service can produce is a parameter: a row, no
  row, an error, or an exception. The main invariant is that the role
  always mirrors the profile.
- **Route guard** (`protected_route.dfy`): the four-way decision of
  `ProtectedRoute` and the table of guarded routes.
- **Role-filtered menus** (`sidebar.dfy`, `home_page.dfy`): the sidebar
  items and the home-page cards, filtered by role, plus the visibility
  rules of the home page.
- **Top bar** (`navbar.dfy`): the greeting name, and the flag that opens
  and closes the sidebar.
- **Data service** (`data_service.dfy`): the seeded arrays, the lookups by
  id, complaint filtering, complaint submission, and profile update with
  its not-found error.
- **List and detail pages**:
  - `civilian_database_page.dfy`, `criminal_database_page.dfy` and
    `police_stations_page.dfy`: case-blind search and the stats cards.
  - `police_station_detail_page.dfy`: what a station page shows to each
    role.
  - `complaint_page.dfy`: officer lookup and complaint validation.
  - `civilian_profile_page.dfy`: the profile editor, a class over the
    form state.
- **Scenarios** (`scenarios.dfy`): start-up, sign-in and sign-out
  sequences, fed through the session model into the guard and the menus.

Shared value helpers are in `common.dfy`: options, toasts, ASCII case
mapping, `trim`, `includes`, `filter`, `find` and `some`.

Some behaviour of the code differs from what a design might want. The
model follows the code:

- A profile fetch that finds no row leaves the state unchanged. No default
  profile is created.
- A fetch result is applied whenever it arrives, even after the user has
  signed out. `AuthSession.LateFetchAfterSignOut` exhibits the resulting
  state: a profile and a role, but no user.
- `logout` clears only the profile and the role, and only when signing out
  does not throw. User and session are cleared later, when the listener
  reports the end of the session.
- JavaScript truthiness is kept:
  - an empty required role guards nothing;
  - an empty role sees no role-restricted sidebar item and no welcome
    block;
  - an empty officer id returns every complaint;
  - an empty e-mail address gives the greeting "User".

## Model

| member | source | states |
|---|---|---|
| AuthSession.OnAuthStateChange | src/hooks/useAuth.tsx:39-53 | session and user always follow the event's session; without a session, profile and role are cleared; with one, they are left for the deferred fetch; loading is untouched |
| AuthSession.ApplyFetch | src/hooks/useAuth.tsx:82-103 | a found row sets profile and role together; an error, an exception or a missing row leaves the whole state unchanged (no profile is created) |
| AuthSession.BeginBootstrap | src/hooks/useAuth.tsx:57-72 | an exception ends loading; otherwise session and user follow the stored session; loading stays on only while a profile fetch for a stored user is awaited |
| AuthSession.FinishBootstrap | src/hooks/useAuth.tsx:64-68 | after the awaited fetch, loading is off and the fetch result is applied as by `fetchUserProfile` |
| AuthSession.AfterLogout | src/hooks/useAuth.tsx:189-206 | when sign-out does not throw, profile and role are cleared; when it throws, nothing changes; user, session and loading are never touched |
| AuthSession.LoginResult | src/hooks/useAuth.tsx:105-142 | true iff there is no error and a user came back; exactly one toast, except for the silent no-error/no-user path; the error toast carries the provider's message; a thrown call gives the "An unexpected error occurred" toast; toasts are destructive iff the call failed |
| AuthSession.RegisterResult | src/hooks/useAuth.tsx:144-187 | the same discipline as login, with the registration titles and the same toast for a thrown call |
| AuthSession.LogoutNotice | src/hooks/useAuth.tsx:194-204 | one toast, destructive exactly when sign-out threw: "Logged out" / "You have been successfully logged out" on success, "Error" / "An error occurred during logout" on failure |
| AuthSession.Step | src/hooks/useAuth.tsx:39-206 | one event of the provider: loading stays on iff it was on and the event does not end it; only the listener's report and the start-up session read move user and session; sign-in and sign-up calls leave the state unchanged (the new session arrives through the listener) |
| AuthSession.Run | src/hooks/useAuth.tsx:39-206 | events applied in order: no run turns loading back on, and the empty run changes nothing |
| AuthSession.StepKeepsRoleMirror | src/hooks/useAuth.tsx:50-51 | every event keeps the role equal to the profile's role (both absent or both present) |
| AuthSession.RunKeepsRoleMirror | src/hooks/useAuth.tsx:50-51 | any sequence of events, in any order, keeps the role mirroring the profile |
| AuthSession.RunLoading | src/hooks/useAuth.tsx:34-72 | loading is on after a run iff it was on before and no event of the run ended it; nothing turns it back on |
| AuthSession.RunSessionFollowsLastReport | src/hooks/useAuth.tsx:41-42 | after an auth-change event, later fetches and calls leave session and user as that event set them |
| AuthSession.UserAndSessionKept | src/hooks/useAuth.tsx:82-206 | every event other than the listener's report and the start-up session read (fetch results, login, register, logout) leaves user and session as they were |
| AuthSession.RunNoticesBound | src/hooks/useAuth.tsx:105-206 | a run emits no more toasts than it has login, register and logout calls |
| AuthSession.LogoutTwice | src/hooks/useAuth.tsx:189-206 | a second successful logout changes nothing more but emits its own toast |
| AuthSession.LateFetchAfterSignOut | src/hooks/useAuth.tsx:45-52 | a fetch that completes after the sign-out event installs a profile and role with no user present |
| AuthSession.LogoutKeepsUserUntilListener | src/hooks/useAuth.tsx:189-193 | after a successful logout the user is still present until the listener reports no session |
| AuthSession.UseAuth | src/hooks/useAuth.tsx:224-230 | outside the provider the hook fails with "useAuth must be used within an AuthProvider"; inside it returns the context |
| AuthSession.AuthProvider.constructor | src/hooks/useAuth.tsx:30-34 | all fields null, loading on, no toasts |
| AuthSession.AuthProvider.OnAuthStateChange | src/hooks/useAuth.tsx:39-53 | the fields move as `Step` says for the event, the role invariant is kept, and the user id whose profile fetch is deferred is returned |
| AuthSession.AuthProvider.FetchUserProfile | src/hooks/useAuth.tsx:82-103 | the fields move as `ApplyFetch` says, whichever user is signed in now |
| AuthSession.AuthProvider.InitializeAuth | src/hooks/useAuth.tsx:57-66 | the fields move as `BeginBootstrap` says; returns the user id whose profile the check awaits |
| AuthSession.AuthProvider.CompleteInitializeAuth | src/hooks/useAuth.tsx:65-68 | the fetch result is applied and loading ends |
| AuthSession.AuthProvider.Login | src/hooks/useAuth.tsx:105-142 | returns `LoginResult`'s verdict and appends its toasts; no state field changes |
| AuthSession.AuthProvider.Register | src/hooks/useAuth.tsx:144-187 | returns `RegisterResult`'s verdict and appends its toasts; no state field changes |
| AuthSession.AuthProvider.Logout | src/hooks/useAuth.tsx:189-206 | the fields move as `AfterLogout` says and the one logout toast is appended |
| AuthSession.SignInScenario | src/hooks/useAuth.tsx:39-103 | start-up without a session, a sign-in, the listener's report and the profile row leave a signed-in user with the row's role, not loading, and one success toast |
| ProtectedRoute.Decide | src/components/ProtectedRoute.tsx:11-41 | loading wins; then no user redirects to login with the "Authentication required" toast; then a required role that differs from the user's (a missing role included) redirects home with "Only <role> users can access this page"; Allow iff not loading, a user, and no required role or the same role |
| ProtectedRoute.Target | src/components/ProtectedRoute.tsx:26-36 | a decision navigates iff it is a redirect: to "/login" without a user, to "/" on a role mismatch |
| ProtectedRoute.DecisionNotices | src/components/ProtectedRoute.tsx:20-40 | a redirect emits exactly its own toast; loading and the rendered page emit none |
| ProtectedRoute.GuardedRouteAccess | src/App.tsx:41-60 | once loading is over, a guarded route opens iff a user is signed in with exactly its role; a user without a role opens none |
| Sidebar.FilteredNavItems | src/components/Sidebar.tsx:62-64 | an item is shown iff it has no role list, or the role is non-empty and in its list; unrestricted items are always shown |
| Sidebar.MenuKeepsOrder | src/components/Sidebar.tsx:62 | the menu is an order-preserving subsequence of the item list |
| Sidebar.FilterNavItems | src/components/Sidebar.tsx:21-56 | filtering the six items by any test yields each item or nothing, in menu order |
| Sidebar.MenuWithoutRole | src/components/Sidebar.tsx:21-31 | without a role the menu is exactly Home, Police Stations |
| Sidebar.MenuForPolice | src/components/Sidebar.tsx:21-56 | the police menu is exactly Home, Police Stations, Civilian Database, Criminal Database |
| Sidebar.MenuForCivilian | src/components/Sidebar.tsx:21-56 | the civilian menu is exactly Home, Police Stations, My Profile, File Complaint |
| HomePage.RenderHome | src/pages/HomePage.tsx:53-55 | sign-in buttons iff no user; welcome block iff a user with a non-empty role; never both; a card is shown iff unrestricted or restricted to the user's role; Police Stations always shows |
| HomePage.CardsKeepOrder | src/pages/HomePage.tsx:53 | the cards are an order-preserving subsequence of the feature list |
| HomePage.FilterFeatures | src/pages/HomePage.tsx:11-51 | filtering the five cards by any test yields each card or nothing, in page order |
| HomePage.FeaturesWithoutRole | src/pages/HomePage.tsx:11-51 | without a role only Police Stations shows |
| HomePage.FeaturesForPolice | src/pages/HomePage.tsx:11-34 | the police see Police Stations, Civilian Database, Criminal Database, in order |
| HomePage.FeaturesForCivilian | src/pages/HomePage.tsx:11-51 | civilians see Police Stations, My Profile, File Complaint, in order |
| Navbar.EmailUsername | src/components/Navbar.tsx:24 | the result is the prefix of the address before its first '@' (the whole address when it has none) |
| Navbar.EmailUsernameOf | src/components/Navbar.tsx:24 | the user name of `local@domain` is `local` when `local` has no '@' |
| Navbar.Capitalize | src/components/Navbar.tsx:26 | same length, first character upper-cased, the rest unchanged |
| Navbar.GetDisplayName | src/components/Navbar.tsx:16-31 | a non-blank display name is returned unchanged; otherwise, with an e-mail address, the text before its first '@' with its first letter upper-cased; otherwise "User" |
| Navbar.GreetsByLocalPart | src/components/Navbar.tsx:23-27 | a user without a usable display name and address `local@domain` is greeted by `local` capitalised |
| Navbar.BlankDisplayNameIgnored | src/components/Navbar.tsx:18 | a whitespace-only display name gives the same greeting as no display name |
| Navbar.SidebarToggle.constructor | src/components/Layout.tsx:8 | the sidebar starts closed |
| Navbar.SidebarToggle.HandleMenuToggle | src/components/Navbar.tsx:35-42 | the flag becomes the negation of its previous value |
| Navbar.SidebarToggle.Close | src/components/Sidebar.tsx:78 | the close button closes the sidebar |
| DataService.GetPoliceStations | src/services/dataService.ts:228-232 | the stored stations, all of them, in stored order |
| DataService.GetCivilians | src/services/dataService.ts:239-242 | the stored civilians, all of them, in stored order |
| DataService.GetCriminals | src/services/dataService.ts:249-252 | the stored criminal records, all of them, in stored order |
| DataService.GetPoliceStationById | src/services/dataService.ts:234-237 | the first station with the id, or none when no station has it |
| DataService.GetCivilianById | src/services/dataService.ts:244-247 | the first civilian with the id, or none when no civilian has it |
| DataService.GetComplaints | src/services/dataService.ts:254-258 | with a non-empty officer id, exactly that officer's complaints in stored order; with no id or the empty id, all complaints unchanged |
| DataService.SubmitComplaint | src/services/dataService.ts:261-268 | officer id, complainant id and text are copied from the draft; id and time stamp are inputs |
| DataService.ApplyPatch | src/services/dataService.ts:286 | address, job, salary and criminal flag: the patch's value when present, the stored one when absent (the address replaced as a whole); id, name, e-mail and phone number are kept when the patch names none of them |
| DataService.PatchLaws | src/services/dataService.ts:286 | the empty patch is the identity; a patch applied twice is applied once; two patches in turn are their merge |
| DataService.UpdateCivilianProfile | src/services/dataService.ts:276-287 | fails with "Civilian not found" iff no civilian has the id; otherwise the first such civilian with the patch applied; the store is a value and never changes |
| DataService.SeededStoreConsistent | src/services/dataService.ts:59-225 | station, civilian and complaint ids are distinct within their arrays; officer ids are distinct across all stations; criminal ids differ from civilian ids; a record's crimes have distinct ids; every seeded complaint names a seeded officer; the criminal flag matches the array a record is in |
| CivilianDatabasePage.FilteredCivilians | src/pages/CivilianDatabasePage.tsx:24-40 | undefined until the list arrives; then exactly the records passing the test: not excluded by "criminals only", and the lower-cased query in the lower-cased name, e-mail, city, state or non-empty job; with "criminals only", every row is flagged |
| CivilianDatabasePage.FilteredCiviliansKeepOrder | src/pages/CivilianDatabasePage.tsx:24 | the rows are an order-preserving subsequence of the records |
| CivilianDatabasePage.EmptySearchListsEveryone | src/pages/CivilianDatabasePage.tsx:24-40 | an empty query with the checkbox off lists every record |
| CivilianDatabasePage.CriminalsOnlyNarrows | src/pages/CivilianDatabasePage.tsx:28-30 | the "criminals only" result is the unticked result filtered to flagged records |
| CivilianDatabasePage.DatabaseStats | src/pages/CivilianDatabasePage.tsx:104-123 | total is the list length; clear is the number of records without the criminal flag and criminal the number with it (each the length of the matching filter, which `FilterMultiplicity` pins); clear plus criminal equals total; each count is zero iff no record has that status; all zero before the list arrives |
| CivilianDatabasePage.SeededStats | src/pages/CivilianDatabasePage.tsx:104-123 | on the seeded store the card reads 2 civilians, 2 clear, 0 criminal |
| CriminalDatabasePage.CriminalShown | src/pages/CriminalDatabasePage.tsx:24-32 | a record passes iff the lower-cased query is in its lower-cased name, e-mail, city, state or some crime description |
| CriminalDatabasePage.FilteredCriminals | src/pages/CriminalDatabasePage.tsx:23-33 | undefined until the list arrives; then exactly the records that pass |
| CriminalDatabasePage.FilteredCriminalsKeepOrder | src/pages/CriminalDatabasePage.tsx:23 | the rows are an order-preserving subsequence of the records |
| CriminalDatabasePage.EmptySearchListsEveryone | src/pages/CriminalDatabasePage.tsx:23-33 | an empty query lists every record |
| CriminalDatabasePage.TotalCrimes | src/pages/CriminalDatabasePage.tsx:94 | the left-fold total is at least each record's crime count, and zero iff no record lists a crime |
| CriminalDatabasePage.TotalCrimesIsSum | src/pages/CriminalDatabasePage.tsx:94 | the left fold of `reduce` equals the sum of every record's crime count, taken independently from the right |
| CriminalDatabasePage.TotalCrimesAppend | src/pages/CriminalDatabasePage.tsx:94 | the total over two lists laid end to end is the sum of their totals |
| CriminalDatabasePage.Stats | src/pages/CriminalDatabasePage.tsx:85-94 | record count and crime total, both zero before the list arrives |
| CriminalDatabasePage.SeededStats | src/pages/CriminalDatabasePage.tsx:85-94 | on the seeded store: one criminal, two crimes |
| PoliceStationsPage.FilteredStations | src/pages/PoliceStationsPage.tsx:19-27 | undefined until the list arrives; then exactly the stations whose lower-cased name, area, city or state contains the lower-cased query |
| PoliceStationsPage.FilteredStationsKeepOrder | src/pages/PoliceStationsPage.tsx:19 | the cards are an order-preserving subsequence of the stations |
| PoliceStationsPage.EmptySearchListsEveryStation | src/pages/PoliceStationsPage.tsx:19-27 | an empty query lists every station |
| PoliceStationsPage.Status | src/pages/PoliceStationsPage.tsx:52 | "Loading stations..." iff the list has not arrived; otherwise the length of the filtered list the cards show, at most the list's length, zero only when none matches, the full length for an empty query |
| PoliceStationsPage.NoMatchIffNoneFound | src/pages/PoliceStationsPage.tsx:52-80 | the no-match message shows iff the status line counts zero stations |
| PoliceStationsPage.OfficerNoun | src/pages/PoliceStationsPage.tsx:110 | "officers" iff the count is not 1, "officer" iff it is 1 |
| PoliceStationDetailPage.ComplaintsData | src/pages/PoliceStationDetailPage.tsx:28-32 | the complaints query yields data iff the route id is non-empty and the role is police, and then every stored complaint |
| PoliceStationDetailPage.ComplaintsOnlyForPolice | src/pages/PoliceStationDetailPage.tsx:28-32 | on the rendered page, a list of complaints appears iff the route id is non-empty, the role is police and complaints are stored; a police user without a route id sees the "No complaints" message; other roles see no card |
| PoliceStationDetailPage.StationComplaints | src/pages/PoliceStationDetailPage.tsx:249-252 | exactly the complaints whose officer id belongs to an officer of the station |
| PoliceStationDetailPage.StationComplaintsKeepOrder | src/pages/PoliceStationDetailPage.tsx:249-252 | the listed complaints keep their stored order |
| PoliceStationDetailPage.Panel | src/pages/PoliceStationDetailPage.tsx:247-264 | the "No complaints" message iff the unfiltered list is absent or empty; otherwise the station's complaints |
| PoliceStationDetailPage.EmptyListInsteadOfMessage | src/pages/PoliceStationDetailPage.tsx:247-263 | complaints that exist but none against the station render an empty list, not the message |
| PoliceStationDetailPage.RenderStation | src/pages/PoliceStationDetailPage.tsx:128-238 | the officer count is pluralised for every count but one; "File Complaint" links, one per officer in order, only for civilians; the complaints card iff the role is police |
| PoliceStationDetailPage.Screen | src/pages/PoliceStationDetailPage.tsx:34-55 | loading first, then "Police station not found", then the station |
| PoliceStationDetailPage.PoliceSeeStationComplaints | src/pages/PoliceStationDetailPage.tsx:28-32 | with complaints stored and a station route id, a police user's card lists the stored complaints against the station's officers |
| ComplaintPage.Officers | src/pages/ComplaintPage.tsx:29 | every officer of every station is in the flattened list, and every listed officer belongs to some station |
| ComplaintPage.OfficersAppend | src/pages/ComplaintPage.tsx:29 | flattening distributes over concatenated station lists |
| ComplaintPage.OfficersOfOneStation | src/pages/ComplaintPage.tsx:29 | one station flattens to its own officers in order; with `OfficersAppend`, the flattening is the stations' officer lists concatenated in station order, as `flatMap` gives |
| ComplaintPage.AllOfficers | src/pages/ComplaintPage.tsx:29 | empty while the stations have not arrived |
| ComplaintPage.TargetOfficer | src/pages/ComplaintPage.tsx:18-32 | null iff the id is "new"; otherwise the first officer with the id, or undefined iff none has it |
| ComplaintPage.Heading | src/pages/ComplaintPage.tsx:77 | "File Complaint Against <name>" for a found officer, "File New Complaint" otherwise |
| ComplaintPage.NoFormWithoutOfficer | src/pages/ComplaintPage.tsx:159 | without a found officer no complaint form is rendered |
| ComplaintPage.OrUnknown | src/pages/ComplaintPage.tsx:65-66 | a present non-empty id, or "unknown" |
| ComplaintPage.HandleSubmit | src/pages/ComplaintPage.tsx:52-69 | blank text is refused with one "Please enter your complaint" error toast; otherwise the draft carries the officer's id, the user's id (each "unknown" when missing) and the untrimmed text |
| ComplaintPage.SubmitFeedback | src/pages/ComplaintPage.tsx:36-49 | success: the "Complaint submitted" toast and a move home; failure: a destructive toast and no move |
| ComplaintPage.FiledComplaintNamesOfficer | src/pages/ComplaintPage.tsx:29-68 | a signed-in user's non-blank complaint against an officer the route names becomes a stored complaint against that officer, from that user, with the text as typed |
| CivilianProfilePage.Set | src/pages/CivilianProfilePage.tsx:74-77 | the named input takes the value; every other input keeps its own |
| CivilianProfilePage.FormExtensionality | src/pages/CivilianProfilePage.tsx:30-38 | a form is determined by its seven inputs |
| CivilianProfilePage.SetLaws | src/pages/CivilianProfilePage.tsx:74-77 | the last edit of an input wins; edits of different inputs commute |
| CivilianProfilePage.OrEmpty | src/pages/CivilianProfilePage.tsx:44-45 | a present string, or the empty string |
| CivilianProfilePage.FormFrom | src/pages/CivilianProfilePage.tsx:41-53 | job and salary (empty when absent) and the five address parts of the stored record |
| CivilianProfilePage.SubmitPayload | src/pages/CivilianProfilePage.tsx:79-93 | job and salary as typed, an address built from exactly the five address inputs, and no other field |
| CivilianProfilePage.SaveUnchangedForm | src/pages/CivilianProfilePage.tsx:41-93 | saving an untouched form gives the record back, except that a missing job or salary becomes the empty string |
| CivilianProfilePage.SaveTouchesOnlyFormFields | src/pages/CivilianProfilePage.tsx:56-93 | a save changes only job, salary and address of civilian "201"; identity, contact data and criminal flag stay |
| CivilianProfilePage.SaveFindsSeededCivilian | src/pages/CivilianProfilePage.tsx:22 | on the seeded store, saving never hits the not-found error |
| CivilianProfilePage.ProfileEditor.constructor | src/pages/CivilianProfilePage.tsx:19-53 | the form starts empty and is filled only from a record present at first render; not editing |
| CivilianProfilePage.ProfileEditor.HandleInputChange | src/pages/CivilianProfilePage.tsx:74-77 | only the named input changes; editing flag and toasts stay |
| CivilianProfilePage.ProfileEditor.ToggleEditing | src/pages/CivilianProfilePage.tsx:191 | the editing flag flips; the form stays |
| CivilianProfilePage.ProfileEditor.HandleSubmit | src/pages/CivilianProfilePage.tsx:79-93 | returns the payload of the current form without changing state |
| CivilianProfilePage.ProfileEditor.OnUpdateSuccess | src/pages/CivilianProfilePage.tsx:57-64 | one "Profile updated" toast; editing ends; the form stays |
| CivilianProfilePage.ProfileEditor.OnUpdateError | src/pages/CivilianProfilePage.tsx:65-71 | one destructive toast; editing flag and form stay |
| CivilianProfilePage.ProfileEditor.EditAndSave | src/pages/CivilianProfilePage.tsx:56-93 | from a closed editor (the form renders only while editing): open, edit one input, save; the service sees the edited form; success closes the editor with one toast, failure leaves it open with one error toast |
| Scenarios.StartSignedOut | src/hooks/useAuth.tsx:57-72 | with no stored session, loading ends, every guarded route redirects to sign-in and the menu is Home, Police Stations |
| Scenarios.StartAsCivilian | src/hooks/useAuth.tsx:57-72 | a stored session with a civilian row opens civilian routes, sends police routes home, and shows the civilian menu and cards |
| Scenarios.StartWithoutProfile | src/hooks/useAuth.tsx:90-99 | a stored session without a profile row leaves a user with no role: every guarded route redirects home |
| Scenarios.SignOutAsPolice | src/hooks/useAuth.tsx:189-193 | right after logout police routes redirect home; once the listener reports no session they redirect to sign-in |
| Common.Lower | src/pages/PoliceStationsPage.tsx:20-25 | `toLowerCase`: same length, each character mapped on its own, no upper-case letter left (ASCII letters only) |
| Common.TrimStart | src/components/Navbar.tsx:18 | a suffix of the input whose dropped prefix is all white space, not starting with white space; empty iff the input is blank |
| Common.TrimEnd | src/components/Navbar.tsx:18 | a prefix of the input whose dropped suffix is all white space, not ending with white space; empty iff the input is blank |
| Common.Trim | src/components/Navbar.tsx:18 | the slice of the input between an all-white-space prefix and an all-white-space suffix, itself neither starting nor ending with white space; empty iff the input is blank |
| Common.Contains | src/pages/PoliceStationsPage.tsx:22-25 | true iff the needle occurs at some index; the empty needle occurs everywhere |
| Common.EmptyQueryMatches | src/pages/PoliceStationsPage.tsx:20-25 | the empty query matches every field |
| Common.Filter | src/components/Sidebar.tsx:62-64 | no longer than the input; every element kept passes the test, and every element of the input that passes is kept |
| Common.FilterMultiplicity | src/components/Sidebar.tsx:62-64 | a filter keeps every copy of a passing element and no copy of a failing one; with `FilterIsSubsequence` this fixes the result |
| Common.FilterIsSubsequence | src/components/Sidebar.tsx:62 | a filter keeps the input's order |
| Common.FilterSplitCount | src/pages/CivilianDatabasePage.tsx:113-123 | the counts of a test and of its negation add up to the length |
| Common.Find | src/services/dataService.ts:236 | none iff no element passes; otherwise the first element that passes |
| Common.Any | src/pages/CriminalDatabasePage.tsx:31 | true iff some element passes |

## Left out

- The remote authentication and table service. Its calls inside the session
  provider (`getSession`, `signInWithPassword`, `signUp`, `signOut`, the
  profile query) are parameters carrying their outcome. The wrappers in
  `src/services/civilianService.ts`, `src/services/policeStationService.ts`
  and `src/services/complaintService.ts` are not part of this model.
- The sign-up request payload (role and display name as user metadata) is
  passed to `AuthSession.AuthProvider.Register` but not modelled further,
  because it only reaches the remote service.
- Scheduling. The `setTimeout(…, 0)` deferral of the listener's profile
  fetch and the race between the listener and the start-up check are
  modelled as an explicit sequence of events (`AuthSession.Run`), not as
  concurrency. The start-up check is split at its `await` into two events.
- The simulated delays of the data service: every service call is a
  function of the store.
- Clock values. The id and time stamp of a submitted complaint are
  parameters of `DataService.SubmitComplaint`.
- Locale formatting (`toLocaleString`, `toLocaleDateString`), JSX markup,
  icons, styling and `console` logging. Toasts are modelled as records in
  an emitted-toast log, not as presentation.
- Common.Lower: does not model Unicode case mapping. Only ASCII letters
  change case, and `Common.UpperChar` likewise.
- The `refetch` after a successful profile update, and the disabling of
  submit buttons while a mutation is pending.
- `assignCriminalStatus` in the data service, which has no effect beyond
  logging.
- CivilianProfilePage.ProfileEditor.HandleInputChange: input names other
  than the seven form fields are not modelled. The form only renders
  those seven.
- DataService.ApplyPatch: fields that are present in a patch but set to
  `undefined` are not modelled; a patch field is either absent or a value.
  Its contract speaks of the four identity fields together, because the
  only patch the application builds names none of them.
- Sidebar.FilteredNavItems and HomePage.RenderHome: the order property is
  stated by `Sidebar.MenuKeepsOrder` and `HomePage.CardsKeepOrder` rather
  than in their own contracts.
- PoliceStationDetailPage.ComplaintsData: cached data of an earlier enabled
  complaints query, which the query library would still return once the
  query is disabled, is not modelled; a disabled query gives no data.
- The query states of the list pages (loading spinners and error messages)
  are not modelled. The exception is the station detail page's
  loading / not-found / found chain.
- The route table outside the guarded routes, the layout footer and the
  not-found page.
