/** The client shell (`App.tsx`): the mock network interceptor, the sign-in
    state with its mock login, device binding and logout, the route guard and
    the role gateway choosing the home dashboard. Browser storage, timers and
    randomness are parameters. */
module Session {
  import opened Collections
  import opened Text
  import opened Types
  import Policy

  // ---------------------------------------------------------------------
  // Mock network interceptor

  /** The body the interceptor answers with; the canned rows themselves are
      not modelled, only which canned answer is given. */
  datatype Payload =
    | CurrentUser(user: Option<User>)
    | NotificationList
    | SyncReceipt
    | CallHistorySample
    | EmployeeSample
    | StatusSuccess

  /** A request either goes to the real network unchanged or is answered locally. */
  datatype FetchResult = Forwarded(url: string) | Mocked(status: int, payload: Payload)

  /** The interceptor: any URL containing `/api/` is answered locally with
      status 200, choosing the answer by the first matching path fragment;
      `stored` is the user kept in browser storage. */
  function AppFetch(url: string, stored: Option<User>): (r: FetchResult)
    ensures r.Forwarded? <==> !Contains(url, "/api/")
    ensures r.Forwarded? ==> r.url == url
    ensures r.Mocked? ==> r.status == 200
  {
    if Contains(url, "/api/") then
      var payload :=
        if Contains(url, "/api/auth/me") then CurrentUser(stored)
        else if Contains(url, "/api/notifications") then NotificationList
        else if Contains(url, "/api/device/sync-calls") then SyncReceipt
        else if Contains(url, "/api/calls/history") then CallHistorySample
        else if Contains(url, "/api/admin/team/employees") then EmployeeSample
        else StatusSuccess;
      Mocked(200, payload)
    else
      Forwarded(url)
  }

  /** The canned routes. */
  datatype MockRoute = AuthMe | Notifications | SyncCalls | History | TeamEmployees

  /** The canned routes with their path fragments, in the order tried. */
  const RouteTable: seq<(string, MockRoute)> := [
    ("/api/auth/me", AuthMe),
    ("/api/notifications", Notifications),
    ("/api/device/sync-calls", SyncCalls),
    ("/api/calls/history", History),
    ("/api/admin/team/employees", TeamEmployees)
  ]

  /** The first route of `table` whose fragment occurs in `url`. */
  function FirstRoute(table: seq<(string, MockRoute)>, url: string): (r: Option<MockRoute>)
    ensures r.Some? ==>
      exists k :: 0 <= k < |table| && table[k].1 == r.value && Contains(url, table[k].0) &&
        forall j :: 0 <= j < k ==> !Contains(url, table[j].0)
    ensures r.None? <==> forall k :: 0 <= k < |table| ==> !Contains(url, table[k].0)
    decreases |table|
  {
    if |table| == 0 then None
    else if Contains(url, table[0].0) then Some(table[0].1)
    else
      var rest := FirstRoute(table[1..], url);
      assert forall k :: 1 <= k < |table| ==> table[k] == table[1..][k - 1];
      rest
  }

  /** The canned answer of each route, and the generic success otherwise. */
  function PayloadOf(route: Option<MockRoute>, stored: Option<User>): Payload {
    match route
    case None => StatusSuccess
    case Some(AuthMe) => CurrentUser(stored)
    case Some(Notifications) => NotificationList
    case Some(SyncCalls) => SyncReceipt
    case Some(History) => CallHistorySample
    case Some(TeamEmployees) => EmployeeSample
  }

  /** The interceptor's if-chain is the route table read first match first. */
  lemma AppFetchFollowsRouteTable(url: string, stored: Option<User>)
    ensures Contains(url, "/api/") ==> AppFetch(url, stored) == Mocked(200, PayloadOf(FirstRoute(RouteTable, url), stored))
  {
    assert RouteTable[1..] == [RouteTable[1]] + RouteTable[2..];
    assert RouteTable[2..] == [RouteTable[2]] + RouteTable[3..];
    assert RouteTable[3..] == [RouteTable[3]] + RouteTable[4..];
    assert RouteTable[4..] == [RouteTable[4]];
  }

  /** Every route fragment contains `/api/`, so a URL that any route matches
      never reaches the network. */
  lemma RoutedUrlsAreNeverForwarded(url: string, stored: Option<User>)
    requires FirstRoute(RouteTable, url).Some?
    ensures AppFetch(url, stored).Mocked?
  {
    var k :| 0 <= k < |RouteTable| && Contains(url, RouteTable[k].0);
    OccurrenceContains(RouteTable[k].0, "/api/", 0);
    ContainsTransitive(url, RouteTable[k].0, "/api/");
  }

  // The two URLs the administrator dashboard fetches through the interceptor,
  // with one substring fact per lemma as for the role values.

  const ReportsUrl := "/api/admin/all-reports"
  const EmployeesUrl := "/api/admin/team/employees"

  lemma ReportsUrlIsApi()
    ensures Contains(ReportsUrl, "/api/")
  {
    OccurrenceContains(ReportsUrl, "/api/", 0);
  }

  lemma ReportsUrlNotAuthMe()
    ensures !Contains(ReportsUrl, "/api/auth/me")
  {
    MissingCharExcludes(ReportsUrl, "/api/auth/me", 8);
  }

  lemma ReportsUrlNotNotifications()
    ensures !Contains(ReportsUrl, "/api/notifications")
  {
    MissingCharExcludes(ReportsUrl, "/api/notifications", 9);
  }

  lemma ReportsUrlNotSync()
    ensures !Contains(ReportsUrl, "/api/device/sync-calls")
  {
    MissingCharExcludes(ReportsUrl, "/api/device/sync-calls", 7);
  }

  lemma ReportsUrlNotHistory()
    ensures !Contains(ReportsUrl, "/api/calls/history")
  {
    MissingCharExcludes(ReportsUrl, "/api/calls/history", 11);
  }

  lemma ReportsUrlNotEmployees()
    ensures !Contains(ReportsUrl, "/api/admin/team/employees")
  {
    MissingCharExcludes(ReportsUrl, "/api/admin/team/employees", 21);
  }

  lemma EmployeesUrlIsApi()
    ensures Contains(EmployeesUrl, "/api/")
  {
    OccurrenceContains(EmployeesUrl, "/api/", 0);
  }

  lemma EmployeesUrlNotAuthMe()
    ensures !Contains(EmployeesUrl, "/api/auth/me")
  {
    MissingCharExcludes(EmployeesUrl, "/api/auth/me", 8);
  }

  lemma EmployeesUrlNotNotifications()
    ensures !Contains(EmployeesUrl, "/api/notifications")
  {
    MissingCharExcludes(EmployeesUrl, "/api/notifications", 9);
  }

  lemma EmployeesUrlNotSync()
    ensures !Contains(EmployeesUrl, "/api/device/sync-calls")
  {
    MissingCharExcludes(EmployeesUrl, "/api/device/sync-calls", 7);
  }

  lemma EmployeesUrlNotHistory()
    ensures !Contains(EmployeesUrl, "/api/calls/history")
  {
    MissingCharExcludes(EmployeesUrl, "/api/calls/history", 11);
  }

  lemma EmployeesUrlIsEmployees()
    ensures Contains(EmployeesUrl, "/api/admin/team/employees")
  {
    OccurrenceContains(EmployeesUrl, "/api/admin/team/employees", 0);
  }

  /** The dashboard's report request gets the generic success object, not a
      list, so the dashboard shows no reports while the interceptor is in place. */
  lemma DashboardReportsGetGenericAnswer(stored: Option<User>)
    ensures AppFetch(ReportsUrl, stored) == Mocked(200, StatusSuccess)
  {
    ReportsUrlIsApi();
    ReportsUrlNotAuthMe();
    ReportsUrlNotNotifications();
    ReportsUrlNotSync();
    ReportsUrlNotHistory();
    ReportsUrlNotEmployees();
  }

  /** The dashboard's employee request gets the canned employee rows. */
  lemma DashboardEmployeesGetSample(stored: Option<User>)
    ensures AppFetch(EmployeesUrl, stored) == Mocked(200, EmployeeSample)
  {
    EmployeesUrlIsApi();
    EmployeesUrlNotAuthMe();
    EmployeesUrlNotNotifications();
    EmployeesUrlNotSync();
    EmployeesUrlNotHistory();
    EmployeesUrlIsEmployees();
  }

  // ---------------------------------------------------------------------
  // Team derivation at login

  /** The client's derivation of a unit from a role value as written: the
      first of the letters 'a' and 'b' that the value contains. */
  function DeriveTeamAsWritten(role: Role): Team {
    if Contains(role.Tag(), "a") then TeamA
    else if Contains(role.Tag(), "b") then TeamB
    else NoTeam
  }

  /** What the derivation as written yields: every role value except
      `employee_b` contains an 'a', so the global administrator and the unit-B
      administrator are put in unit A, and nobody is left without a unit. */
  lemma AsWrittenTeamMisplacesAdmins(r: Role)
    ensures DeriveTeamAsWritten(r) != NoTeam
    ensures DeriveTeamAsWritten(r) == TeamB <==> r == TeamBEmployee
    ensures DeriveTeamAsWritten(r) != Policy.UnitOf(r) <==> r == SuperAdmin || r == TeamBAdmin
    ensures DeriveTeamAsWritten(SuperAdmin) == TeamA && DeriveTeamAsWritten(TeamBAdmin) == TeamA
  {
    LetterATags(r);
    LetterBTags(r);
    LetterATags(SuperAdmin);
    LetterATags(TeamBAdmin);
  }

  /** `s` ends with `suffix`. */
  predicate EndsWith(s: string, suffix: string) {
    |suffix| <= |s| && s[|s| - |suffix|..] == suffix
  }

  /** The intended derivation: the unit named by the role value's suffix. */
  function DeriveTeam(role: Role): Team {
    if EndsWith(role.Tag(), "_a") then TeamA
    else if EndsWith(role.Tag(), "_b") then TeamB
    else NoTeam
  }

  /** The suffix reading gives every role the unit the server's seed
      accounts give it. */
  lemma DeriveTeamIsUnit(r: Role)
    ensures DeriveTeam(r) == Policy.UnitOf(r)
  {
    match r
    case SuperAdmin =>
      assert "super_admin"[9..] == "in";
    case TeamAAdmin =>
      assert "team_admin_a"[10..] == "_a";
    case TeamBAdmin =>
      assert "team_admin_a"[10..] == "_a";
      assert "team_admin_b"[10..] == "_b";
    case TeamAEmployee =>
      assert "employee_a"[8..] == "_a";
    case TeamBEmployee =>
      assert "employee_b"[8..] == "_b";
  }

  // ---------------------------------------------------------------------
  // Mock login

  /** Decimal digits of a natural number, most significant first. */
  function Digits(n: nat): (r: string)
    ensures |r| >= 1
    ensures forall k :: 0 <= k < |r| ==> '0' <= r[k] <= '9'
    decreases n
  {
    var last := ['0' + (n % 10) as char];
    if n < 10 then last else Digits(n / 10) + last
  }

  /** The number a digit string denotes. */
  function DigitsValue(s: string): nat
    decreases |s|
  {
    if |s| == 0 then 0
    else
      var d := s[|s| - 1] as int - '0' as int;
      DigitsValue(s[..|s| - 1]) * 10 + (if 0 <= d then d else 0)
  }

  /** Reading back the digits gives the number. */
  lemma {:induction false} DigitsRoundTrip(n: nat)
    ensures DigitsValue(Digits(n)) == n
    decreases n
  {
    var s := Digits(n);
    if n >= 10 {
      DigitsRoundTrip(n / 10);
      assert s[..|s| - 1] == Digits(n / 10);
    }
  }

  /** A four-digit number is written with exactly four digits. */
  lemma {:induction false} FourDigits(n: nat)
    requires 1000 <= n <= 9999
    ensures |Digits(n)| == 4
  {
    assert |Digits(n / 10 / 10 / 10)| == 1;
    assert |Digits(n / 10 / 10)| == 2;
    assert |Digits(n / 10)| == 3;
  }

  /** The device id the login gives an employee: `DEV_` and the number in
      four decimal digits, which read back as the number. */
  function DeviceId(n: nat): (id: string)
    requires 1000 <= n <= 9999
    ensures IsPrefix("DEV_", id) && DigitsValue(id[4..]) == n
    ensures |id| == 8 && forall k :: 4 <= k < 8 ==> '0' <= id[k] <= '9'
  {
    DigitsRoundTrip(n);
    FourDigits(n);
    var id := "DEV_" + Digits(n);
    assert id[4..] == Digits(n);
    id
  }

  /** The mock login as written: `idSuffix` stands for the random id text,
      `deviceNumber` for the random four-digit number and `now` for the
      current time. The unit comes from the letter test, so every role but
      `employee_b` lands in unit A, and only the unit-A roles and `employee_b`
      get the unit their role names. */
  function Login(name: string, email: string, role: Role, idSuffix: string, deviceNumber: nat, now: string): (u: User)
    requires 1000 <= deviceNumber <= 9999
    ensures u.role == role && u.email == email && u.status == Active
    ensures u.name == if name == "" then "Operator" else name
    ensures u.team == if role == TeamBEmployee then TeamB else TeamA
    ensures u.team == Policy.UnitOf(role) <==> role != SuperAdmin && role != TeamBAdmin
    ensures u.deviceId.Some? <==> role.IsEmployee()
    ensures u.deviceId.Some? ==> IsPrefix("DEV_", u.deviceId.value) && DigitsValue(u.deviceId.value[4..]) == deviceNumber
    ensures u.deviceId.Some? ==>
      |u.deviceId.value| == 8 && forall k :: 4 <= k < 8 ==> '0' <= u.deviceId.value[k] <= '9'
    ensures IsPrefix("usr_", u.id) && u.lastSyncAt.None?
  {
    EmployeeTags(role);
    AsWrittenTeamMisplacesAdmins(role);
    var device := DeviceId(deviceNumber);
    User(
      id := "usr_" + idSuffix,
      name := if name == "" then "Operator" else name,
      email := email,
      phoneNumber := "9998887776",
      role := role,
      team := DeriveTeamAsWritten(role),
      designation := Some("Staff"),
      deviceId := if Contains(role.Tag(), "employee") then Some(device) else None,
      lastSyncAt := None,
      createdAt := now,
      status := Active)
  }

  /** The mock login with the unit read from the role's suffix: the same user
      as the login as written except for the unit, which is the role's own. */
  function LoginCorrected(name: string, email: string, role: Role, idSuffix: string, deviceNumber: nat, now: string): (u: User)
    requires 1000 <= deviceNumber <= 9999
    ensures u.team == Policy.UnitOf(role)
    ensures u.(team := Login(name, email, role, idSuffix, deviceNumber, now).team) == Login(name, email, role, idSuffix, deviceNumber, now)
  {
    DeriveTeamIsUnit(role);
    Login(name, email, role, idSuffix, deviceNumber, now).(team := DeriveTeam(role))
  }

  // ---------------------------------------------------------------------
  // Sign-in state

  /** The signed-in user and whether the stored session is still being read. */
  datatype AuthState = AuthState(user: Option<User>, loading: bool)

  /** The state before the stored session has been read. */
  const Initial := AuthState(None, true)

  /** Reading the stored session: a stored user is restored, and loading ends
      either way. */
  function Restore(s: AuthState, stored: Option<User>): (r: AuthState)
    ensures !r.loading
    ensures r.user == if stored.Some? then stored else s.user
  {
    AuthState(if stored.Some? then stored else s.user, false)
  }

  function SignIn(s: AuthState, u: User): (r: AuthState)
    ensures r.user == Some(u) && r.loading == s.loading
  {
    s.(user := Some(u))
  }

  function Logout(s: AuthState): (r: AuthState)
    ensures r.user.None? && r.loading == s.loading
  {
    s.(user := None)
  }

  /** Binding a device changes the signed-in user's device and nothing else;
      with nobody signed in it does nothing. */
  function BindDevice(s: AuthState, deviceId: string): (r: AuthState)
    ensures r.loading == s.loading
    ensures s.user.None? ==> r == s
    ensures s.user.Some? ==>
      r.user.Some? && r.user.value.deviceId == Some(deviceId) &&
      r.user.value.(deviceId := s.user.value.deviceId) == s.user.value
  {
    if s.user.Some? then s.(user := Some(s.user.value.(deviceId := Some(deviceId)))) else s
  }

  /** The last device bound wins. */
  lemma BindDeviceLastWins(s: AuthState, first: string, second: string)
    ensures BindDevice(BindDevice(s, first), second) == BindDevice(s, second)
  {
  }

  /** Logging out forgets any binding made in the session. */
  lemma LogoutForgetsBinding(s: AuthState, deviceId: string)
    ensures Logout(BindDevice(s, deviceId)) == Logout(s)
  {
  }

  /** A freshly signed-in employee already carries a device, so binding
      replaces it; an administrator gains one only by binding. */
  lemma SignInThenBind(name: string, email: string, role: Role, idSuffix: string, deviceNumber: nat, now: string, deviceId: string)
    requires 1000 <= deviceNumber <= 9999
    ensures var u := Login(name, email, role, idSuffix, deviceNumber, now);
      BindDevice(SignIn(Initial, u), deviceId).user == Some(u.(deviceId := Some(deviceId)))
  {
  }

  // ---------------------------------------------------------------------
  // Route guard and home dashboard

  /** What a guarded route renders: a loading screen, a redirect to the login
      page (remembering the requested location only when nobody is signed
      in), or the guarded page. */
  datatype Gate = ShowLoading | ToLogin(rememberFrom: bool) | ShowChildren

  function ProtectedRoute(s: AuthState, allowed: seq<Role>): (g: Gate)
    ensures g == ShowChildren <==> !s.loading && s.user.Some? && s.user.value.role in allowed
    ensures g == ShowLoading <==> s.loading
    ensures g.ToLogin? ==> (g.rememberFrom <==> s.user.None?)
  {
    if s.loading then ShowLoading
    else if s.user.None? then ToLogin(true)
    else if s.user.value.role !in allowed then ToLogin(false)
    else ShowChildren
  }

  /** The roles the application's root route admits. */
  const RootRoles: seq<Role> := [SuperAdmin, TeamAAdmin, TeamBAdmin, TeamAEmployee, TeamBEmployee]

  /** The root guard admits every signed-in user once loading is over, and
      nobody before. */
  lemma RootGuardAdmitsEverySignedInUser(s: AuthState)
    ensures ProtectedRoute(s, RootRoles) == ShowChildren <==> !s.loading && s.user.Some?
  {
    if s.user.Some? {
      var r := s.user.value.role;
      assert r == RootRoles[0] || r == RootRoles[1] || r == RootRoles[2] || r == RootRoles[3] || r == RootRoles[4];
    }
  }

  /** The dashboard a signed-in user lands on. */
  datatype Home = AdminHome | EmployeeHome

  /** Users whose role value contains "admin" get the administrator
      dashboard; everyone else, and nobody, the employee dashboard. */
  function RoleGateway(user: Option<User>): (h: Home)
    ensures h == AdminHome <==> user.Some? && user.value.role.IsAdmin()
  {
    if user.Some? then
      AdminTags(user.value.role);
      if Contains(user.value.role.Tag(), "admin") then AdminHome else EmployeeHome
    else
      EmployeeHome
  }
}
