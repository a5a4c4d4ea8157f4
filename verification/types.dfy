/** The enumerations and record shapes of `types.ts` that every access
    decision in the server and the client branches on. */
module Types {
  import opened Collections
  import opened Text

  /** The five roles of the system, with their string values. */
  datatype Role = SuperAdmin | TeamAAdmin | TeamBAdmin | TeamAEmployee | TeamBEmployee {

    /** The string value the enum member carries (what headers, stored
        documents and the client's substring tests see). */
    function Tag(): string {
      match this
      case SuperAdmin => "super_admin"
      case TeamAAdmin => "team_admin_a"
      case TeamBAdmin => "team_admin_b"
      case TeamAEmployee => "employee_a"
      case TeamBEmployee => "employee_b"
    }

    predicate IsAdmin() {
      SuperAdmin? || TeamAAdmin? || TeamBAdmin?
    }

    predicate IsEmployee() {
      TeamAEmployee? || TeamBEmployee?
    }
  }

  /** The members of the enum, in declaration order. */
  const AllRoles: seq<Role> := [SuperAdmin, TeamAAdmin, TeamBAdmin, TeamAEmployee, TeamBEmployee]

  /** The enum has exactly five members and their string values are pairwise distinct. */
  lemma RoleEnumeration()
    ensures |AllRoles| == 5
    ensures forall r: Role :: r in AllRoles
    ensures forall i, j :: 0 <= i < j < |AllRoles| ==> AllRoles[i].Tag() != AllRoles[j].Tag()
  {
    forall r: Role
      ensures r in AllRoles
    {
      assert r == AllRoles[0] || r == AllRoles[1] || r == AllRoles[2] || r == AllRoles[3] || r == AllRoles[4];
    }
  }

  /** The enum member whose string value is `s`, if there is one. */
  function ParseRole(s: string): (r: Option<Role>)
    ensures r.Some? ==> r.value.Tag() == s
    ensures r.None? <==> forall x: Role :: x.Tag() != s
  {
    if s == "super_admin" then Some(SuperAdmin)
    else if s == "team_admin_a" then Some(TeamAAdmin)
    else if s == "team_admin_b" then Some(TeamBAdmin)
    else if s == "employee_a" then Some(TeamAEmployee)
    else if s == "employee_b" then Some(TeamBEmployee)
    else None
  }

  /** Parsing a member's own string value gives the member back. */
  lemma ParseRoleInvertsTag(r: Role)
    ensures ParseRole(r.Tag()) == Some(r)
  {
  }

  // Substring facts about each role's string value, one per lemma: each is
  // stated on the literal and proved from an explicit occurrence or from a
  // character the value lacks.

  lemma SuperAdminAdmin()
    ensures Contains("super_admin", "admin")
  {
    OccurrenceContains("super_admin", "admin", 6);
  }

  lemma SuperAdminEmployee()
    ensures !Contains("super_admin", "employee")
  {
    MissingCharExcludes("super_admin", "employee", 3);
  }

  lemma SuperAdminLetterA()
    ensures Contains("super_admin", "a")
  {
    OccurrenceContains("super_admin", "a", 6);
  }

  lemma SuperAdminLetterB()
    ensures !Contains("super_admin", "b")
  {
    MissingCharExcludes("super_admin", "b", 0);
  }

  lemma TeamAAdminAdmin()
    ensures Contains("team_admin_a", "admin")
  {
    OccurrenceContains("team_admin_a", "admin", 5);
  }

  lemma TeamAAdminEmployee()
    ensures !Contains("team_admin_a", "employee")
  {
    MissingCharExcludes("team_admin_a", "employee", 3);
  }

  lemma TeamAAdminLetterA()
    ensures Contains("team_admin_a", "a")
  {
    OccurrenceContains("team_admin_a", "a", 5);
  }

  lemma TeamAAdminLetterB()
    ensures !Contains("team_admin_a", "b")
  {
    MissingCharExcludes("team_admin_a", "b", 0);
  }

  lemma TeamBAdminAdmin()
    ensures Contains("team_admin_b", "admin")
  {
    OccurrenceContains("team_admin_b", "admin", 5);
  }

  lemma TeamBAdminEmployee()
    ensures !Contains("team_admin_b", "employee")
  {
    MissingCharExcludes("team_admin_b", "employee", 3);
  }

  lemma TeamBAdminLetterA()
    ensures Contains("team_admin_b", "a")
  {
    OccurrenceContains("team_admin_b", "a", 5);
  }

  lemma TeamBAdminLetterB()
    ensures Contains("team_admin_b", "b")
  {
    OccurrenceContains("team_admin_b", "b", 11);
  }

  lemma TeamAEmployeeAdmin()
    ensures !Contains("employee_a", "admin")
  {
    MissingCharExcludes("employee_a", "admin", 1);
  }

  lemma TeamAEmployeeEmployee()
    ensures Contains("employee_a", "employee")
  {
    OccurrenceContains("employee_a", "employee", 0);
  }

  lemma TeamAEmployeeLetterA()
    ensures Contains("employee_a", "a")
  {
    OccurrenceContains("employee_a", "a", 9);
  }

  lemma TeamAEmployeeLetterB()
    ensures !Contains("employee_a", "b")
  {
    MissingCharExcludes("employee_a", "b", 0);
  }

  lemma TeamBEmployeeAdmin()
    ensures !Contains("employee_b", "admin")
  {
    MissingCharExcludes("employee_b", "admin", 1);
  }

  lemma TeamBEmployeeEmployee()
    ensures Contains("employee_b", "employee")
  {
    OccurrenceContains("employee_b", "employee", 0);
  }

  lemma TeamBEmployeeLetterA()
    ensures !Contains("employee_b", "a")
  {
    MissingCharExcludes("employee_b", "a", 0);
  }

  lemma TeamBEmployeeLetterB()
    ensures Contains("employee_b", "b")
  {
    OccurrenceContains("employee_b", "b", 9);
  }

  /** Exactly the three administrator roles have values containing "admin". */
  lemma AdminTags(r: Role)
    ensures Contains(r.Tag(), "admin") <==> r.IsAdmin()
  {
    match r
    case SuperAdmin => SuperAdminAdmin();
    case TeamAAdmin => TeamAAdminAdmin();
    case TeamBAdmin => TeamBAdminAdmin();
    case TeamAEmployee => TeamAEmployeeAdmin();
    case TeamBEmployee => TeamBEmployeeAdmin();
  }

  /** Exactly the two employee roles have values containing "employee". */
  lemma EmployeeTags(r: Role)
    ensures Contains(r.Tag(), "employee") <==> r.IsEmployee()
  {
    match r
    case SuperAdmin => SuperAdminEmployee();
    case TeamAAdmin => TeamAAdminEmployee();
    case TeamBAdmin => TeamBAdminEmployee();
    case TeamAEmployee => TeamAEmployeeEmployee();
    case TeamBEmployee => TeamBEmployeeEmployee();
  }

  /** Every role value except `employee_b` contains the letter 'a'. */
  lemma LetterATags(r: Role)
    ensures Contains(r.Tag(), "a") <==> r != TeamBEmployee
  {
    match r
    case SuperAdmin => SuperAdminLetterA();
    case TeamAAdmin => TeamAAdminLetterA();
    case TeamBAdmin => TeamBAdminLetterA();
    case TeamAEmployee => TeamAEmployeeLetterA();
    case TeamBEmployee => TeamBEmployeeLetterA();
  }

  /** Exactly the two unit-B role values contain the letter 'b'. */
  lemma LetterBTags(r: Role)
    ensures Contains(r.Tag(), "b") <==> (r == TeamBAdmin || r == TeamBEmployee)
  {
    match r
    case SuperAdmin => SuperAdminLetterB();
    case TeamAAdmin => TeamAAdminLetterB();
    case TeamBAdmin => TeamBAdminLetterB();
    case TeamAEmployee => TeamAEmployeeLetterB();
    case TeamBEmployee => TeamBEmployeeLetterB();
  }

  /** A user's unit: `'teamA' | 'teamB' | 'none'`. */
  datatype Team = TeamA | TeamB | NoTeam

  /** A daily report belongs to a unit, never to `'none'`. */
  type UnitTeam = t: Team | t != NoTeam witness TeamA

  /** Account state: `'ACTIVE' | 'PENDING' | 'SUSPENDED'`. */
  datatype UserStatus = Active | Pending | Suspended

  /** Report review state: `'PENDING' | 'APPROVED' | 'REJECTED'`. */
  datatype ReportStatus = Pending | Approved | Rejected

  /** Telephony result of a call: `'connected' | 'missed' | 'failed'`. */
  datatype CallStatus = Connected | Missed | Failed

  /** Provenance of a call record. */
  datatype SyncSource = DeviceOnly | SystemCore

  /** The sales outcome an operator assigns to a call. */
  datatype CallOutcome = NotAnswered | NotInterested | Invalid | Interested | Answered | BookPlotVisit {
    function Tag(): string {
      match this
      case NotAnswered => "not answered"
      case NotInterested => "not interested"
      case Invalid => "invalid"
      case Interested => "interested"
      case Answered => "Answered"
      case BookPlotVisit => "book plot visit"
    }
  }

  /** The outcome picker of the calls page, in display order. */
  const OutcomeOptions: seq<CallOutcome> :=
    [NotAnswered, NotInterested, Invalid, Interested, Answered, BookPlotVisit]

  /** The picker offers every outcome exactly once, and the six outcomes have
      six distinct string values. */
  lemma OutcomeOptionsComplete()
    ensures |OutcomeOptions| == 6
    ensures forall o: CallOutcome :: o in OutcomeOptions
    ensures forall i, j :: 0 <= i < j < |OutcomeOptions| ==> OutcomeOptions[i] != OutcomeOptions[j]
    ensures forall o1: CallOutcome, o2: CallOutcome :: o1.Tag() == o2.Tag() ==> o1 == o2
  {
    forall o: CallOutcome
      ensures o in OutcomeOptions
    {
      assert o == OutcomeOptions[0] || o == OutcomeOptions[1] || o == OutcomeOptions[2]
        || o == OutcomeOptions[3] || o == OutcomeOptions[4] || o == OutcomeOptions[5];
    }
  }

  /** The signed-in user as the client holds it. */
  datatype User = User(
    id: string,
    name: string,
    email: string,
    phoneNumber: string,
    role: Role,
    team: Team,
    designation: Option<string>,
    deviceId: Option<string>,
    lastSyncAt: Option<string>,
    createdAt: string,
    status: UserStatus)

  /** A call record as the client lists it. */
  datatype CallLog = CallLog(
    id: string,
    employeeId: string,
    employeeName: string,
    employeeTeam: Team,
    customerNumber: string,
    status: CallStatus,
    durationSeconds: int,
    outcome: Option<string>,
    notes: Option<string>,
    createdAt: string,
    syncSource: SyncSource,
    deviceId: string,
    hashSignature: string,
    isVerified: bool,
    phoneNumber: Option<string>,
    contactName: Option<string>,
    recordingUrl: Option<string>,
    recordingConsent: Option<bool>)

  /** An employee's daily activity report as the client lists it. */
  datatype DailyReport = DailyReport(
    id: string,
    employeeId: string,
    employeeName: string,
    team: UnitTeam,
    date: string,
    tasks: Option<string>,
    callsCount: Option<int>,
    followUps: int,
    remarks: string,
    status: ReportStatus,
    approvedBy: Option<string>,
    createdAt: string)
}
