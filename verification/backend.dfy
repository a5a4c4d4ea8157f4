/** The server: the role middleware and the team-locked handlers over the
    three document collections (users, calls, daily reports). A collection
    is a sequence of documents; a handler is a pure function from the
    collection and the request to a reply (and, for writes, the collection
    afterwards). */
module Backend {
  import opened Collections
  import opened Text
  import opened Types
  import Policy
  import Ordering

  /** The identity headers that stand in for decoded token claims. */
  datatype Headers = Headers(
    role: Option<string>,
    team: Option<string>,
    userId: Option<string>,
    userName: Option<string>)

  /** `req.user` as the middleware fills it in. */
  datatype Actor = Actor(role: string, team: string, id: string, name: string)

  /** The distinct refusals the handlers give (HTTP 403 with different messages). */
  datatype Denial =
    | RoleBlocked   // the middleware's role whitelist
    | CrossUnit     // a team administrator writing another unit's record
    | NoClearance   // recording: neither owner nor in authority
    | NoConsent     // recording: cleared, but no consent on file

  /** A handler's answer: the JSON body of a 200, a 404 or a 403. */
  datatype Reply<+T> = Ok(value: T) | NotFound | Forbidden(reason: Denial)

  /** A write handler's answer together with the collection afterwards. */
  datatype Handled<S, T> = Handled(store: seq<S>, reply: Reply<T>)

  /** JavaScript's `header || fallback`: an absent or empty header falls back. */
  function HeaderOr(h: Option<string>, fallback: string): string {
    if h.Some? && h.value != "" then h.value else fallback
  }

  /** The role a request acts with; a request without one acts as the global administrator. */
  function EffectiveRole(h: Headers): string {
    HeaderOr(h.role, "super_admin")
  }

  /** The identity a request acts with. */
  function ActorId(h: Headers): string {
    HeaderOr(h.userId, "mock_id")
  }

  /** The name recorded as a report's approver. */
  function ActorName(h: Headers): string {
    HeaderOr(h.userName, "Admin")
  }

  /** The role middleware: builds the actor from the headers and refuses a
      role outside a non-empty whitelist; an empty whitelist admits anyone. */
  function Authorize(allowed: seq<string>, h: Headers): (r: Reply<Actor>)
    ensures r.Ok? || r == Forbidden(RoleBlocked)
    ensures r.Ok? <==> |allowed| == 0 || EffectiveRole(h) in allowed
    ensures r.Ok? ==> r.value == Actor(EffectiveRole(h), HeaderOr(h.team, "none"), ActorId(h), ActorName(h))
  {
    var actor := Actor(
      HeaderOr(h.role, "super_admin"),
      HeaderOr(h.team, "none"),
      HeaderOr(h.userId, "mock_id"),
      HeaderOr(h.userName, "Admin"));
    if |allowed| > 0 && actor.role !in allowed then Forbidden(RoleBlocked) else Ok(actor)
  }

  /** The whitelist of every management route. */
  const AdminRoles: seq<string> := ["super_admin", "team_admin_a", "team_admin_b"]

  /** The management routes admit exactly the requests whose role names one
      of the three administrator roles. */
  lemma AdminRoutesAdmitExactlyAdmins(h: Headers)
    ensures Authorize(AdminRoles, h).Ok? <==> Policy.IsAdminTag(EffectiveRole(h))
  {
  }

  /** A request with no role header is treated as the global administrator,
      with team `none`, id `mock_id` and name `Admin` when those are missing too. */
  lemma MissingRoleHeaderActsAsSuperAdmin(allowed: seq<string>, h: Headers)
    requires h.role.None?
    ensures Authorize(allowed, h).Ok? <==> |allowed| == 0 || "super_admin" in allowed
    ensures h == Headers(None, None, None, None) && Authorize(allowed, h).Ok? ==>
      Authorize(allowed, h).value == Actor("super_admin", "none", "mock_id", "Admin")
    ensures Authorize(AdminRoles, h).Ok?
  {
  }

  // ---------------------------------------------------------------------
  // Documents

  /** A stored account. The role is one of the schema's five values. */
  datatype UserDoc = UserDoc(
    id: string,
    name: string,
    email: string,
    password: Option<string>,
    role: Role,
    team: Team,
    phone: Option<string>,
    designation: Option<string>,
    deviceId: Option<string>)

  /** A stored call record. */
  datatype CallDoc = CallDoc(
    id: string,
    employeeId: string,
    employeeName: string,
    employeeTeam: Team,
    customerNumber: string,
    status: CallStatus,
    duration: int,
    outcome: Option<string>,
    notes: Option<string>,
    syncSource: string,
    deviceId: Option<string>,
    hashSignature: Option<string>,
    recordingConsent: bool,
    recordingUrl: Option<string>,
    createdAt: int)

  /** A stored daily report. */
  datatype ReportDoc = ReportDoc(
    id: string,
    employeeId: string,
    employeeName: string,
    team: Team,
    date: int,
    tasks: Option<string>,
    callsCount: Option<int>,
    followUps: Option<int>,
    remarks: Option<string>,
    status: ReportStatus,
    approvedBy: Option<string>,
    createdAt: int)

  function CallStamp(c: CallDoc): int { c.createdAt }

  function ReportStamp(r: ReportDoc): int { r.createdAt }

  /** `i` is the position `findById(id)` finds: the first document with that id. */
  ghost predicate FirstUserWithId(users: seq<UserDoc>, id: string, i: int) {
    0 <= i < |users| && users[i].id == id && forall j :: 0 <= j < i ==> users[j].id != id
  }

  ghost predicate FirstReportWithId(reports: seq<ReportDoc>, id: string, i: int) {
    0 <= i < |reports| && reports[i].id == id && forall j :: 0 <= j < i ==> reports[j].id != id
  }

  ghost predicate FirstCallWithId(calls: seq<CallDoc>, id: string, i: int) {
    0 <= i < |calls| && calls[i].id == id && forall j :: 0 <= j < i ==> calls[j].id != id
  }

  // ---------------------------------------------------------------------
  // Personnel

  /** The `$regex: 'employee'` test on a stored role. */
  predicate IsEmployeeRecord(d: UserDoc) {
    Contains(d.role.Tag(), "employee")
  }

  /** The regular-expression test selects exactly the two employee roles. */
  lemma EmployeeRecordsAreEmployees()
    ensures forall d: UserDoc :: IsEmployeeRecord(d) <==> d.role.IsEmployee()
  {
    forall d: UserDoc
      ensures IsEmployeeRecord(d) <==> d.role.IsEmployee()
    {
      EmployeeTags(d.role);
    }
  }

  /** The `select('-password')` projection. */
  function Hide(d: UserDoc): UserDoc {
    d.(password := None)
  }

  function HideAll(ds: seq<UserDoc>): (r: seq<UserDoc>)
    ensures |r| == |ds|
    ensures forall i :: 0 <= i < |ds| ==> r[i] == Hide(ds[i])
    ensures forall d :: d in ds ==> Hide(d) in r
    ensures forall u :: u in r ==> exists d :: d in ds && u == Hide(d)
    decreases |ds|
  {
    if |ds| == 0 then [] else [Hide(ds[0])] + HideAll(ds[1..])
  }

  /** The employees an administrator's role may list, stated with the
      access policy rather than the handler's string tests. */
  function EmployeeScope(role: string): UserDoc -> bool {
    (d: UserDoc) => d.role.IsEmployee() && Policy.InScope(Policy.ScopeOfTag(role), d.team, false)
  }

  /** The `User.find(query)` of the employee listing, for an administrator's
      role: the policy's selection of the collection, in collection order. */
  function EmployeeQuery(users: seq<UserDoc>, role: string): (found: seq<UserDoc>)
    requires Policy.IsAdminTag(role)
    ensures found == Filter(users, EmployeeScope(role))
    ensures forall d :: d in found <==>
      d in users && d.role.IsEmployee() && Policy.InScope(Policy.ScopeOfTag(role), d.team, false)
  {
    Policy.ScopeOfTagSpelledOut(role);
    EmployeeRecordsAreEmployees();
    var keep: UserDoc -> bool :=
      if role == "team_admin_a" then (d: UserDoc) => IsEmployeeRecord(d) && d.team == TeamA
      else if role == "team_admin_b" then (d: UserDoc) => IsEmployeeRecord(d) && d.team == TeamB
      else IsEmployeeRecord;
    FilterCongruent(users, keep, EmployeeScope(role));
    Filter(users, keep)
  }

  /** GET /api/admin/team/employees: administrators only; the employees of the
      caller's scope, without passwords, in collection order. */
  function ListEmployees(users: seq<UserDoc>, h: Headers): (r: Reply<seq<UserDoc>>)
    ensures r.Ok? <==> Policy.IsAdminTag(EffectiveRole(h))
    ensures !r.Ok? ==> r == Forbidden(RoleBlocked)
    ensures r.Ok? ==> r.value == HideAll(Filter(users, EmployeeScope(EffectiveRole(h))))
    ensures r.Ok? ==> forall u :: u in r.value ==>
      (u.password.None? && u.role.IsEmployee() &&
       Policy.InScope(Policy.ScopeOfTag(EffectiveRole(h)), u.team, false))
    ensures r.Ok? ==> forall d :: d in users ==>
      (d.role.IsEmployee() && Policy.InScope(Policy.ScopeOfTag(EffectiveRole(h)), d.team, false) ==>
       Hide(d) in r.value)
  {
    var auth := Authorize(AdminRoles, h);
    if !auth.Ok? then Forbidden(RoleBlocked)
    else
      var role := auth.value.role;
      Policy.ScopeOfTagSpelledOut(role);
      if role != "super_admin" && role != "team_admin_a" && role != "team_admin_b" then
        Forbidden(RoleBlocked)
      else
        Ok(HideAll(EmployeeQuery(users, role)))
  }

  /** The body of PUT /api/admin/employee/:id: each of the four contact fields,
      when supplied non-empty. */
  datatype EmployeePatch = EmployeePatch(
    name: Option<string>,
    phone: Option<string>,
    designation: Option<string>,
    deviceId: Option<string>)

  /** A body value JavaScript treats as true: present and non-empty. */
  predicate Truthy(v: Option<string>) {
    v.Some? && v.value != ""
  }

  /** The four `if (field) employee.field = field` assignments. */
  function ApplyPatch(d: UserDoc, p: EmployeePatch): (e: UserDoc)
    ensures e.(name := d.name, phone := d.phone, designation := d.designation, deviceId := d.deviceId) == d
    ensures Truthy(p.name) ==> e.name == p.name.value
    ensures !Truthy(p.name) ==> e.name == d.name
    ensures Truthy(p.phone) ==> e.phone == p.phone
    ensures !Truthy(p.phone) ==> e.phone == d.phone
    ensures Truthy(p.designation) ==> e.designation == p.designation
    ensures !Truthy(p.designation) ==> e.designation == d.designation
    ensures Truthy(p.deviceId) ==> e.deviceId == p.deviceId
    ensures !Truthy(p.deviceId) ==> e.deviceId == d.deviceId
  {
    var withName := if Truthy(p.name) then d.(name := p.name.value) else d;
    var withPhone := if Truthy(p.phone) then withName.(phone := p.phone) else withName;
    var withDesignation := if Truthy(p.designation) then withPhone.(designation := p.designation) else withPhone;
    if Truthy(p.deviceId) then withDesignation.(deviceId := p.deviceId) else withDesignation
  }

  /** Applying the same update twice changes nothing more. */
  lemma ApplyPatchIdempotent(d: UserDoc, p: EmployeePatch)
    ensures ApplyPatch(ApplyPatch(d, p), p) == ApplyPatch(d, p)
  {
  }

  /** PUT /api/admin/employee/:id: administrators only; 404 for an unknown id;
      otherwise allowed exactly when the caller governs the employee's unit,
      and then only the supplied contact fields change. */
  function UpdateEmployee(users: seq<UserDoc>, h: Headers, id: string, patch: EmployeePatch): (r: Handled<UserDoc, UserDoc>)
    ensures !r.reply.Ok? ==> r.store == users
    ensures r.reply.Forbidden? ==> r.reply.reason == RoleBlocked || r.reply.reason == CrossUnit
    ensures r.reply == Forbidden(RoleBlocked) <==> !Policy.IsAdminTag(EffectiveRole(h))
    ensures r.reply.NotFound? <==>
      Policy.IsAdminTag(EffectiveRole(h)) && forall d :: d in users ==> d.id != id
    ensures r.reply.Ok? <==>
      Policy.IsAdminTag(EffectiveRole(h)) &&
      exists i :: FirstUserWithId(users, id, i) && Policy.Governs(EffectiveRole(h), users[i].team)
    ensures r.reply.Ok? ==>
      exists i :: FirstUserWithId(users, id, i) &&
        r.reply.value == ApplyPatch(users[i], patch) && r.store == users[i := r.reply.value]
  {
    var auth := Authorize(AdminRoles, h);
    if !auth.Ok? then Handled(users, Forbidden(RoleBlocked))
    else
      var actor := auth.value;
      match FindFirst(users, (d: UserDoc) => d.id == id)
      case None =>
        assert forall d :: d in users ==> d.id != id;
        Handled(users, NotFound)
      case Some(k) =>
        var employee := users[k];
        assert FirstUserWithId(users, id, k);
        assert forall i :: FirstUserWithId(users, id, i) ==> i == k;
        Policy.GovernsSpelledOut(actor.role, employee.team);
        var isSuperAdmin := actor.role == "super_admin";
        var isCorrectTeamAdmin :=
          (actor.role == "team_admin_a" && employee.team == TeamA) ||
          (actor.role == "team_admin_b" && employee.team == TeamB);
        if !isSuperAdmin && !isCorrectTeamAdmin then
          Handled(users, Forbidden(CrossUnit))
        else
          var updated := ApplyPatch(employee, patch);
          Handled(users[k := updated], Ok(updated))
  }

  // ---------------------------------------------------------------------
  // Daily reports

  /** The `DailyReport.find(query)` of the report listing, for an administrator's role. */
  function ReportQuery(reports: seq<ReportDoc>, role: string): (found: seq<ReportDoc>)
    requires Policy.IsAdminTag(role)
    ensures
      forall x :: multiset(found)[x] ==
        if Policy.InScope(Policy.ScopeOfTag(role), x.team, false) then multiset(reports)[x] else 0
  {
    Policy.ScopeOfTagSpelledOut(role);
    if role == "team_admin_a" then Filter(reports, (x: ReportDoc) => x.team == TeamA)
    else if role == "team_admin_b" then Filter(reports, (x: ReportDoc) => x.team == TeamB)
    else reports
  }

  /** GET /api/admin/all-reports: administrators only; the reports of the
      caller's scope, newest first. */
  function ListReports(reports: seq<ReportDoc>, h: Headers): (r: Reply<seq<ReportDoc>>)
    ensures r.Ok? <==> Policy.IsAdminTag(EffectiveRole(h))
    ensures !r.Ok? ==> r == Forbidden(RoleBlocked)
    ensures r.Ok? ==> Ordering.NewestFirst(r.value, ReportStamp)
    ensures r.Ok? ==>
      forall x :: multiset(r.value)[x] ==
        if Policy.InScope(Policy.ScopeOfTag(EffectiveRole(h)), x.team, false) then multiset(reports)[x] else 0
  {
    var auth := Authorize(AdminRoles, h);
    if !auth.Ok? then Forbidden(RoleBlocked)
    else Ok(Ordering.SortNewestFirst(ReportQuery(reports, auth.value.role), ReportStamp))
  }

  /** PUT /api/admin/report/:id: administrators only; 404 for an unknown id;
      otherwise allowed exactly when the caller governs the report's unit, and
      then the report takes the requested status and the caller's name as
      approver, nothing else. */
  function UpdateReport(reports: seq<ReportDoc>, h: Headers, id: string, status: ReportStatus): (r: Handled<ReportDoc, ReportDoc>)
    ensures !r.reply.Ok? ==> r.store == reports
    ensures r.reply.Forbidden? ==> r.reply.reason == RoleBlocked || r.reply.reason == CrossUnit
    ensures r.reply == Forbidden(RoleBlocked) <==> !Policy.IsAdminTag(EffectiveRole(h))
    ensures r.reply.NotFound? <==>
      Policy.IsAdminTag(EffectiveRole(h)) && forall x :: x in reports ==> x.id != id
    ensures r.reply.Ok? <==>
      Policy.IsAdminTag(EffectiveRole(h)) &&
      exists i :: FirstReportWithId(reports, id, i) && Policy.Governs(EffectiveRole(h), reports[i].team)
    ensures r.reply.Ok? ==>
      exists i :: FirstReportWithId(reports, id, i) &&
        r.reply.value == reports[i].(status := status, approvedBy := Some(ActorName(h))) &&
        r.store == reports[i := r.reply.value]
  {
    var auth := Authorize(AdminRoles, h);
    if !auth.Ok? then Handled(reports, Forbidden(RoleBlocked))
    else
      var actor := auth.value;
      match FindFirst(reports, (x: ReportDoc) => x.id == id)
      case None =>
        assert forall x :: x in reports ==> x.id != id;
        Handled(reports, NotFound)
      case Some(k) =>
        var report := reports[k];
        assert FirstReportWithId(reports, id, k);
        assert forall i :: FirstReportWithId(reports, id, i) ==> i == k;
        Policy.GovernsSpelledOut(actor.role, report.team);
        var isSuperAdmin := actor.role == "super_admin";
        var isCorrectTeamAdmin :=
          (actor.role == "team_admin_a" && report.team == TeamA) ||
          (actor.role == "team_admin_b" && report.team == TeamB);
        if !isSuperAdmin && !isCorrectTeamAdmin then
          Handled(reports, Forbidden(CrossUnit))
        else
          var updated := report.(status := status, approvedBy := Some(actor.name));
          Handled(reports[k := updated], Ok(updated))
  }

  // ---------------------------------------------------------------------
  // Calls

  /** The `Call.find(query)` of the call history, for any role text and caller id. */
  function CallQuery(calls: seq<CallDoc>, role: string, callerId: string): (found: seq<CallDoc>)
    ensures
      forall c :: multiset(found)[c] ==
        if Policy.InScope(Policy.ScopeOfTag(role), c.employeeTeam, c.employeeId == callerId)
        then multiset(calls)[c] else 0
  {
    Policy.ScopeOfTagSpelledOut(role);
    if role == "super_admin" then calls
    else if role == "team_admin_a" then Filter(calls, (c: CallDoc) => c.employeeTeam == TeamA)
    else if role == "team_admin_b" then Filter(calls, (c: CallDoc) => c.employeeTeam == TeamB)
    else Filter(calls, (c: CallDoc) => c.employeeId == callerId)
  }

  /** GET /api/calls/history: open to every role; the calls of the caller's
      scope (for a non-administrator, those it made itself), newest first. */
  function CallHistory(calls: seq<CallDoc>, h: Headers): (r: Reply<seq<CallDoc>>)
    ensures r.Ok?
    ensures Ordering.NewestFirst(r.value, CallStamp)
    ensures
      forall c :: multiset(r.value)[c] ==
        if Policy.InScope(Policy.ScopeOfTag(EffectiveRole(h)), c.employeeTeam, c.employeeId == ActorId(h))
        then multiset(calls)[c] else 0
  {
    var auth := Authorize([], h);
    if !auth.Ok? then Forbidden(RoleBlocked)
    else Ok(Ordering.SortNewestFirst(CallQuery(calls, auth.value.role, auth.value.id), CallStamp))
  }

  /** GET /api/calls/:id/recording: 404 for an unknown call; 403 unless the
      caller owns the call or governs its unit; then the URL if consent was
      recorded or the caller is the global administrator, else a legal 403. */
  function RecordingAccess(calls: seq<CallDoc>, h: Headers, id: string): (r: Reply<Option<string>>)
    ensures r.NotFound? <==> forall c :: c in calls ==> c.id != id
    ensures r.Ok? <==>
      exists i :: FirstCallWithId(calls, id, i) &&
        Policy.MayHearRecording(EffectiveRole(h), calls[i].employeeId == ActorId(h),
                                calls[i].employeeTeam, calls[i].recordingConsent)
    ensures r.Ok? ==> exists i :: FirstCallWithId(calls, id, i) && r.value == calls[i].recordingUrl
    ensures r == Forbidden(NoClearance) <==>
      exists i :: FirstCallWithId(calls, id, i) &&
        calls[i].employeeId != ActorId(h) && !Policy.Governs(EffectiveRole(h), calls[i].employeeTeam)
    ensures r.Forbidden? ==> r.reason == NoClearance || r.reason == NoConsent
  {
    var auth := Authorize([], h);
    if !auth.Ok? then Forbidden(RoleBlocked)
    else
      var actor := auth.value;
      match FindFirst(calls, (c: CallDoc) => c.id == id)
      case None =>
        assert forall c :: c in calls ==> c.id != id;
        NotFound
      case Some(k) =>
        var call := calls[k];
        assert FirstCallWithId(calls, id, k);
        assert forall i :: FirstCallWithId(calls, id, i) ==> i == k;
        Policy.GovernsSpelledOut(actor.role, call.employeeTeam);
        Policy.ScopeOfTagSpelledOut(actor.role);
        var isOwner := call.employeeId == actor.id;
        var isSuperAdmin := actor.role == "super_admin";
        var isTeamAdmin :=
          (actor.role == "team_admin_a" && call.employeeTeam == TeamA) ||
          (actor.role == "team_admin_b" && call.employeeTeam == TeamB);
        if !isOwner && !isSuperAdmin && !isTeamAdmin then
          Forbidden(NoClearance)
        else if call.recordingConsent || isSuperAdmin then
          Ok(call.recordingUrl)
        else
          Forbidden(NoConsent)
  }

  // ---------------------------------------------------------------------
  // Properties across handlers

  /** A unit administrator's report decision never changes a report of
      another unit, whatever id it names. */
  lemma UnitAdminWritesOnlyOwnUnitReports(admin: Role, reports: seq<ReportDoc>, h: Headers, id: string, status: ReportStatus)
    requires (admin == TeamAAdmin || admin == TeamBAdmin) && EffectiveRole(h) == admin.Tag()
    ensures var r := UpdateReport(reports, h, id, status);
      |r.store| == |reports| &&
      forall j :: 0 <= j < |reports| && reports[j].team != Policy.UnitOf(admin) ==> r.store[j] == reports[j]
  {
    var r := UpdateReport(reports, h, id, status);
    if r.reply.Ok? {
      var i :| FirstReportWithId(reports, id, i) && Policy.Governs(EffectiveRole(h), reports[i].team);
      Policy.GovernsSpelledOut(EffectiveRole(h), reports[i].team);
    }
  }

  /** A unit administrator's employee update never changes an account of
      another unit, whatever id it names. */
  lemma UnitAdminWritesOnlyOwnUnitEmployees(admin: Role, users: seq<UserDoc>, h: Headers, id: string, patch: EmployeePatch)
    requires (admin == TeamAAdmin || admin == TeamBAdmin) && EffectiveRole(h) == admin.Tag()
    ensures var r := UpdateEmployee(users, h, id, patch);
      |r.store| == |users| &&
      forall j :: 0 <= j < |users| && users[j].team != Policy.UnitOf(admin) ==> r.store[j] == users[j]
  {
    var r := UpdateEmployee(users, h, id, patch);
    if r.reply.Ok? {
      var i :| FirstUserWithId(users, id, i) && Policy.Governs(EffectiveRole(h), users[i].team);
      Policy.GovernsSpelledOut(EffectiveRole(h), users[i].team);
    }
  }

  /** Repeating a report decision is harmless: the second request gives the
      same answer and leaves the collection as the first one left it. */
  lemma UpdateReportIdempotent(reports: seq<ReportDoc>, h: Headers, id: string, status: ReportStatus)
    ensures var once := UpdateReport(reports, h, id, status);
      UpdateReport(once.store, h, id, status) == once
  {
    var once := UpdateReport(reports, h, id, status);
    var twice := UpdateReport(once.store, h, id, status);
    if once.reply.Ok? {
      var i :| FirstReportWithId(reports, id, i) && Policy.Governs(EffectiveRole(h), reports[i].team) &&
        once.reply.value == reports[i].(status := status, approvedBy := Some(ActorName(h))) &&
        once.store == reports[i := once.reply.value];
      assert FirstReportWithId(once.store, id, i);
      assert forall k :: FirstReportWithId(once.store, id, k) ==> k == i;
      assert once.store[i := once.store[i].(status := status, approvedBy := Some(ActorName(h)))] == once.store;
    }
  }

  /** Without a role header a request passes every check of the recording
      route: any existing call's link is handed out, consent or not. */
  lemma MissingRoleHeaderHearsEveryRecording(calls: seq<CallDoc>, h: Headers, id: string)
    requires h.role.None?
    requires exists c :: c in calls && c.id == id
    ensures RecordingAccess(calls, h, id).Ok?
  {
    var k := FindFirst(calls, (c: CallDoc) => c.id == id);
    assert FirstCallWithId(calls, id, k.value);
    Policy.GovernsSpelledOut(EffectiveRole(h), calls[k.value].employeeTeam);
    Policy.ScopeOfTagSpelledOut(EffectiveRole(h));
  }

  /** Below the global administrator, a recording is only handed out for a
      call with consent on file. */
  lemma ConsentBindsAllButSuperAdmin(calls: seq<CallDoc>, h: Headers, id: string)
    requires EffectiveRole(h) != "super_admin"
    requires RecordingAccess(calls, h, id).Ok?
    ensures exists i :: FirstCallWithId(calls, id, i) && calls[i].recordingConsent
  {
    Policy.ScopeOfTagSpelledOut(EffectiveRole(h));
  }

  /** Without a role header the call history is the whole collection. */
  lemma MissingRoleHeaderSeesAllHistory(calls: seq<CallDoc>, h: Headers)
    requires h.role.None?
    ensures multiset(CallHistory(calls, h).value) == multiset(calls)
  {
    Policy.ScopeOfTagSpelledOut(EffectiveRole(h));
  }
}
