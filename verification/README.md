# connectasetu access control, in Dafny

connectasetu is a call-centre workforce app. Its server and its client both enforce one rule over five roles:
- the global administrator (`super_admin`) sees and governs everything;
- a unit administrator (`team_admin_a`, `team_admin_b`) sees and governs its own unit (`teamA`, `teamB`);
- an employee (`employee_a`, `employee_b`) sees only its own records.

This project models that rule wherever it appears:
- the Express handlers over the user, call and daily-report collections;
- the calls page, the administrator dashboard and the session shell of the React client;
- the enumerations they branch on.

The modules:

- `Collections`, `Text`: order-preserving filter, first match, subsequence, substring search and ASCII lower-casing.
- `Types`: roles, units, statuses and call outcomes, with the substring facts about role values that the code relies on. Also the client's `User`, `CallLog` and `DailyReport` records.
- `Policy`: the access rule stated once, over the role enum. It covers list scope, write authority and the recording rule. The server handlers and the calls page's role filter are proved to agree with it. Three client decisions are proved to differ from it:
  - the dashboard's employee panel shows a unit administrator every employee (`AdminDashboard.EmployeePanelScope`);
  - the calls page's playback gate refuses unit administrators the calls it lists them (`CallsPage.UnitAdminListsButCannotPlay`);
  - the dashboard's report table follows the unit the login gives the user, which is wrong for the unit-B administrator (`AdminDashboard.AsWrittenUnitBAdminSeesUnitA`). It agrees with the policy only under the corrected login (`AdminDashboard.CorrectedLoginUnitAdminSeesOwnUnit`).
- `Ordering`: the newest-first order of query results.
- `Backend`: the role middleware and the six handlers. Each handler is a pure function from the collection and the request headers to `Ok | NotFound | Forbidden(reason)`, together with the collection afterwards for writes.
- `CallsPage`, `Session`, `AdminDashboard`: the client logic of `pages/CallsPage.tsx`, `App.tsx` and `pages/AdminDashboard.tsx`.

Collections are sequences. A document's position stands in for its identity, and `findById` is the first document with that id. Browser storage, random numbers and the clock are parameters.

## Model

| member | source | states |
|---|---|---|
| Types.RoleEnumeration | types.ts:2-8 | there are exactly five roles, and their string values are pairwise distinct |
| Types.ParseRole | types.ts:2-8 | reading a role value yields the role with that value, or nothing exactly when no role has it |
| Types.ParseRoleInvertsTag | types.ts:2-8 | reading a role's own value gives the role back |
| Types.AdminTags | types.ts:3-7 | a role value contains "admin" exactly for the three administrator roles |
| Types.EmployeeTags | types.ts:3-7 | a role value contains "employee" exactly for the two employee roles |
| Types.LetterATags | App.tsx:101 | every role value except `employee_b` contains the letter 'a' |
| Types.LetterBTags | App.tsx:101 | exactly the two unit-B role values contain the letter 'b' |
| Types.OutcomeOptionsComplete | pages/CallsPage.tsx:6-13 | the outcome picker lists each of the six outcomes exactly once, and the six outcome strings are distinct |
| Policy.GovernsIsAdminScope | backend_implementation.js:148-150 | an administrator has write authority exactly over the units its listings show |
| Policy.NoCrossUnitAuthority | backend_implementation.js:189-195 | below the global administrator, a role has authority over a unit exactly when it is that unit's administrator: none over another unit or over records of no unit, and an employee has none, not even over its own unit |
| Policy.ScopeOfTagSpelledOut | backend_implementation.js:209-213 | the string comparisons of the handlers compute exactly the scope of the role the text names; unknown text gets the employee's scope |
| Policy.GovernsSpelledOut | backend_implementation.js:189-191 | the handlers' `isSuperAdmin \|\| isCorrectTeamAdmin` test is exactly write authority over the record's unit |
| Ordering.SortNewestFirst | backend_implementation.js:179 | results are a permutation of the query's documents, ordered by descending creation time |
| Backend.Authorize | backend_implementation.js:94-107 | a request passes exactly when the whitelist is empty or names its role; missing or empty headers fall back to `super_admin`, `none`, `mock_id`, `Admin` |
| Backend.AdminRoutesAdmitExactlyAdmins | backend_implementation.js:127 | the management whitelist admits exactly the requests whose role is an administrator role |
| Backend.MissingRoleHeaderActsAsSuperAdmin | backend_implementation.js:96-99 | a request without a role header passes every administrator route and acts as `super_admin` |
| Backend.EmployeeRecordsAreEmployees | backend_implementation.js:128 | the `$regex: 'employee'` role test selects exactly the employee roles |
| Backend.HideAll | backend_implementation.js:134 | the projection keeps length and order: each listed account is the found account in the same position with its password removed |
| Backend.EmployeeQuery | backend_implementation.js:128-134 | the string tests on the role select, in collection order, exactly the policy's selection: the employee accounts in the role's scope |
| Backend.ListEmployees | backend_implementation.js:127-136 | administrators get the employees of their scope, each once per stored copy, in collection order and without passwords: the policy's selection of the collection with the password hidden; every other role is refused |
| Backend.ApplyPatch | backend_implementation.js:156-160 | only name, phone, designation and device change, each only when a non-empty value is supplied; role, team, email and password are kept |
| Backend.ApplyPatchIdempotent | backend_implementation.js:156-160 | applying the same update twice changes nothing more |
| Backend.UpdateEmployee | backend_implementation.js:142-167 | non-administrators are refused; an unknown id is not found; otherwise the update succeeds exactly when the caller governs the employee's unit, and it changes only that account; every refusal leaves the collection unchanged |
| Backend.UnitAdminWritesOnlyOwnUnitEmployees | backend_implementation.js:147-154 | a unit administrator's update never changes an account of another unit, whatever id it names |
| Backend.ListReports | backend_implementation.js:173-181 | administrators get exactly the reports of their scope, newest first; every other role is refused |
| Backend.UpdateReport | backend_implementation.js:183-204 | the cross-unit rule as for employees; a success sets the requested status and the caller's name as approver on that one report, and nothing else changes |
| Backend.UnitAdminWritesOnlyOwnUnitReports | backend_implementation.js:188-195 | a unit administrator never changes a report of another unit, whatever id it names |
| Backend.UpdateReportIdempotent | backend_implementation.js:183-204 | repeating a report decision gives the same answer and leaves the collection as the first request left it |
| Backend.ReportQuery | backend_implementation.js:174-177 | the report query selects, with their multiplicity, exactly the reports in the administrator role's scope: all of them for the global administrator, the unit's for a unit administrator |
| Backend.CallQuery | backend_implementation.js:209-213 | the history query selects all calls, the unit's calls, or the caller's own calls, according to the role text |
| Backend.CallHistory | backend_implementation.js:208-217 | any role may ask; the answer is exactly the calls of its scope, and a non-administrator gets the calls it made itself; newest first |
| Backend.MissingRoleHeaderSeesAllHistory | backend_implementation.js:96 | without a role header the call history is the whole collection |
| Backend.RecordingAccess | backend_implementation.js:219-242 | an unknown call is not found; a caller who neither owns the call nor governs its unit is refused for clearance; a cleared caller gets the link when consent is on file or it is the global administrator; otherwise it is refused on legal grounds |
| Backend.MissingRoleHeaderHearsEveryRecording | backend_implementation.js:96 | without a role header every existing call's recording link is handed out, consent or not |
| Backend.ConsentBindsAllButSuperAdmin | backend_implementation.js:234-238 | below the global administrator, a link is handed out only for calls with consent on file |
| CallsPage.RoleFilter | pages/CallsPage.tsx:101-110 | the page keeps, in order and with their multiplicity, exactly the calls in the viewer's scope: all of them, the unit's, or the viewer's own (`me` or its own name) |
| CallsPage.SignedOutSeesOnlyPlaceholderCalls | pages/CallsPage.tsx:109 | with nobody signed in, only calls owned by `me` are kept |
| CallsPage.SearchCalls | pages/CallsPage.tsx:126-130 | the search keeps, in order and with their multiplicity, the calls whose phone contains the term verbatim or whose contact or operator name contains it in any case; an empty term keeps everything |
| CallsPage.NameMatchIgnoresTermCase | pages/CallsPage.tsx:128-129 | name matching gives the same answer for a term and its lower-cased form |
| CallsPage.SearchNarrows | pages/CallsPage.tsx:126-130 | a call shown for a term is shown for every part of that term |
| CallsPage.EditWhere | pages/CallsPage.tsx:115 | the edit applies to exactly the calls with the given id; the list keeps its length and order |
| CallsPage.UpdateOutcome | pages/CallsPage.tsx:114-119 | only the outcome of the calls with the given id changes, and the open detail view follows when it shows that call |
| CallsPage.UpdateOutcomeIdempotent | pages/CallsPage.tsx:114-119 | recording the same outcome twice is recording it once |
| CallsPage.SelectionStaysListed | pages/CallsPage.tsx:114-119 | a detail view showing a listed call still shows a listed call after the edit |
| CallsPage.UpdateNotes | pages/CallsPage.tsx:345-347 | only the notes of the calls with the open call's id change; the detail view is not touched |
| CallsPage.UpdateNotesLastWins | pages/CallsPage.tsx:345-347 | the last notes written win |
| CallsPage.ToggleExpand | pages/CallsPage.tsx:121-124 | toggling the open row closes it; toggling any other row makes it the open row |
| CallsPage.ToggleTwice | pages/CallsPage.tsx:121-124 | toggling the same row twice restores the page exactly when no other row was open |
| CallsPage.ExpandedRows | pages/CallsPage.tsx:165 | every row whose id is the open id is drawn expanded, each copy of it, and no other row is |
| CallsPage.AtMostOneExpanded | pages/CallsPage.tsx:165 | when ids are distinct, at most one row is drawn expanded |
| CallsPage.PlaybackIsEverythingOrOwn | pages/CallsPage.tsx:166 | playback is allowed exactly to the global administrator and to the call's own operator |
| CallsPage.UnitAdminListsButCannotPlay | pages/CallsPage.tsx:166 | a unit administrator is shown its unit's calls by others but can play none of them |
| CallsPage.PlaybackIgnoresConsent | pages/CallsPage.tsx:244 | the player is shown or hidden regardless of the call's consent flag |
| CallsPage.SplitDuration | pages/CallsPage.tsx:236 | a non-negative duration is shown as minutes and seconds below 60 that add back up to it |
| Session.AppFetch | App.tsx:19-54 | URLs without `/api/` go to the network unchanged; every other request is answered locally with status 200 |
| Session.FirstRoute | App.tsx:28-48 | the chosen route's fragment occurs in the URL and no earlier route's fragment does; no route is chosen exactly when no fragment occurs |
| Session.AppFetchFollowsRouteTable | App.tsx:28-48 | the local answer is the one of the first route, in table order, whose fragment occurs in the URL, and the generic success otherwise |
| Session.RoutedUrlsAreNeverForwarded | App.tsx:22 | every route fragment contains `/api/`, so a URL matching a route is never sent to the network |
| Session.DashboardReportsGetGenericAnswer | App.tsx:46-48 | the dashboard's report request gets the generic success object and no report list |
| Session.DashboardEmployeesGetSample | App.tsx:41-45 | the dashboard's employee request gets the canned employee rows |
| Session.AsWrittenTeamMisplacesAdmins | App.tsx:101 | as written, only `employee_b` is put in unit B and nobody is left without a unit; `super_admin` and `team_admin_b` are put in unit A |
| Session.DeriveTeamIsUnit | App.tsx:101 | the corrected derivation gives every role the unit the server's seed accounts give it |
| Session.DigitsRoundTrip | App.tsx:103 | the device number written into a device id reads back as the same number |
| Session.DeviceId | App.tsx:103 | an employee's device id is `DEV_` and exactly four decimal digits, which read back as the drawn number |
| Session.Login | App.tsx:94-109 | the new user keeps role and email, is active, and is called "Operator" when no name is given. It is put in unit B only for `employee_b` and in unit A otherwise, so it gets its role's unit exactly when it is neither the global nor the unit-B administrator. It has a device id exactly when it is an employee: `DEV_` followed by the number written in exactly four decimal digits |
| Session.LoginCorrected | App.tsx:101 | the login with the unit read from the role's suffix: the same user, but in the unit its role names |
| Session.Restore | App.tsx:88-92 | reading storage ends loading and restores a stored user |
| Session.SignIn | App.tsx:107 | signing in makes the new user current |
| Session.Logout | App.tsx:115-118 | logging out leaves nobody signed in |
| Session.BindDevice | App.tsx:120-126 | binding changes only the signed-in user's device, and does nothing when nobody is signed in |
| Session.BindDeviceLastWins | App.tsx:120-126 | the last device bound wins |
| Session.LogoutForgetsBinding | App.tsx:115-126 | logging out after a binding is the same as logging out |
| Session.SignInThenBind | App.tsx:94-126 | binding right after login replaces only the device of the logged-in user |
| Session.ProtectedRoute | App.tsx:73-82 | a guarded page is shown exactly to a signed-in user with an allowed role once loading is over; the login redirect remembers the location only when nobody is signed in |
| Session.RootGuardAdmitsEverySignedInUser | App.tsx:143 | the root route admits every signed-in user once loading is over |
| Session.RoleGateway | App.tsx:164-168 | the administrator dashboard is chosen exactly for the three administrator roles |
| AdminDashboard.FilteredReports | pages/AdminDashboard.tsx:52 | the table keeps, in order and with their multiplicity, the reports of the unit in view: the tab's for the global administrator, the user's own otherwise |
| AdminDashboard.TabsPartitionReports | pages/AdminDashboard.tsx:52 | the global administrator's two tabs list every loaded report exactly once between them |
| AdminDashboard.UnitAAdminSeesOwnUnit | pages/AdminDashboard.tsx:52 | the unit-A administrator signed in through the login sees exactly unit A's reports |
| AdminDashboard.AsWrittenUnitBAdminSeesUnitA | pages/AdminDashboard.tsx:52 | the unit-B administrator signed in through the login is shown exactly unit A's reports, none of its own unit's |
| AdminDashboard.CorrectedLoginUnitAdminSeesOwnUnit | pages/AdminDashboard.tsx:52 | with the corrected login, each unit administrator sees exactly its own unit's reports |
| AdminDashboard.SignedOutSeesNoReports | pages/AdminDashboard.tsx:52 | nobody signed in sees no report |
| AdminDashboard.VisibleEmployees | pages/AdminDashboard.tsx:105 | the panel keeps, in order and with their multiplicity, the tab's unit for the global administrator and every employee otherwise |
| AdminDashboard.EmployeePanelScope | pages/AdminDashboard.tsx:105 | the panel hides nothing from a unit administrator, and never shows the global administrator an employee of no unit |
| AdminDashboard.ReviewActions | pages/AdminDashboard.tsx:166-171 | review buttons are offered exactly for pending reports: both approve and reject, and none of them sets a report back to pending |
| AdminDashboard.ReviewIsFinal | pages/AdminDashboard.tsx:166-171 | a report given either decision offers no further buttons |
| AdminDashboard.ChartSeries | pages/AdminDashboard.tsx:31-32 | one bar per day, pairing day i with the i-th value of each series when there is one |
| AdminDashboard.ChartSeriesExtends | pages/AdminDashboard.tsx:31-32 | a new day with a value in each series adds one bar at the end and leaves the earlier bars unchanged |

## Left out

- The Express and mongoose machinery is not modelled: routing, persistence, seeding, write-time enum validation, and the 500 answers when `save()` fails. A document id that is not an ObjectId is not modelled either. It raises a cast error, which becomes a 500 in the two write handlers.
- The login route, JWT and the GoogleGenAI client are not modelled. No modelled handler uses them.
- Backend.UpdateReport: the requested status is modelled as one of the three report statuses. The handler assigns any body value and leaves rejection to mongoose's validation on save.
- Backend.CallQuery: call and report unit fields are free strings in the schema and are narrowed to the three units. Every rule compares them only with `teamA` and `teamB`, so any other value behaves like `none`.
- Ordering.SortNewestFirst: Mongo leaves the order of equal timestamps open. The model fixes one order, and its contract claims only the ordering and the permutation.
- Browser storage is a parameter (`stored`, `Restore`), and writes to it are not modelled. The same goes for `Math.random` (`idSuffix`, `deviceNumber`), the clock (`now`) and the `setTimeout` delays.
- Session.Login: the random id text is not modelled, only its `usr_` prefix.
- Backend.CallHistory: for a caller that is not an administrator, an id that is not an ObjectId (the middleware's default `mock_id`, say) makes the employee query of backend_implementation.js:209 fail with a cast error. The handler has no `catch`, so no answer is sent. The model answers with the empty list instead.
- Backend.RecordingAccess: two 500 answers are not modelled. A `:id` that is not an ObjectId fails the lookup at backend_implementation.js:221, where the model answers not found. A stored call without `employee_id` throws at backend_implementation.js:225, even for the global administrator, where the model treats the call as the caller's own or not by comparing ids.
- The canned payload rows of the interceptor are not modelled, only which canned answer is given.
- Signup only writes to the console and is not modelled.
- The dashboard's `fetchData` JSON handling and its `Array.isArray` guard are not modelled, nor is its error path. Only the chart pairing is modelled.
- CallsPage.SearchCalls: lower-casing is ASCII only, while JavaScript's `toLowerCase` also folds other scripts.
- The display-only call fields are not modelled: start and end time, direction, call type and source.
- React rendering, the other pages, the assistant widget and the Android code are not modelled. They hold no decision logic.
- The quota percentage on the employee dashboard uses floating point and is not modelled.

## Findings

| source | as written | input that shows it | evidently intended | confidence | as-written member | corrected member |
|---|---|---|---|---|---|---|
| App.tsx:101 | the login picks the unit by the first letter test, `role.includes('a')` before `role.includes('b')` | role `team_admin_b` (and `super_admin`): the value contains 'a', so the user gets `teamA`; the dashboard then lists unit A's reports to the unit-B administrator | the unit named by the role, as in the server's seed accounts (backend_implementation.js:81-85): `none` for `super_admin`, `teamB` for `team_admin_b` | high; not executed | Session.AsWrittenTeamMisplacesAdmins | Session.LoginCorrected |
