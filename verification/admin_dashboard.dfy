/** The administrator dashboard of the client (`pages/AdminDashboard.tsx`):
    the unit tab, which reports and which employees it lists, the review
    buttons of a report and the activity chart. */
module AdminDashboard {
  import opened Collections
  import opened Types
  import Policy
  import Session

  /** The unit tab only the global administrator switches between. */
  datatype Tab = TabA | TabB

  function TabTeam(t: Tab): UnitTeam {
    match t
    case TabA => TeamA
    case TabB => TeamB
  }

  predicate IsSuperAdmin(user: Option<User>) {
    user.Some? && user.value.role == SuperAdmin
  }

  /** The unit whose reports are in view: the tab's for the global
      administrator, the user's own for anyone else, none when signed out. */
  function UnitInView(user: Option<User>, tab: Tab): Option<Team> {
    if IsSuperAdmin(user) then Some(TabTeam(tab))
    else if user.Some? then Some(user.value.team)
    else None
  }

  /** The reports table: the loaded reports of the unit in view, in load order. */
  function FilteredReports(user: Option<User>, tab: Tab, reports: seq<DailyReport>): (r: seq<DailyReport>)
    ensures IsSubsequence(r, reports)
    ensures forall x :: x in r <==> x in reports && UnitInView(user, tab) == Some(x.team)
    ensures forall x :: multiset(r)[x] == if UnitInView(user, tab) == Some(x.team) then multiset(reports)[x] else 0
  {
    Filter(reports, (x: DailyReport) => if IsSuperAdmin(user) then x.team == TabTeam(tab) else user.Some? && x.team == user.value.team)
  }

  /** The global administrator's two tabs split the loaded reports between
      them: every report is listed under exactly one tab. */
  lemma TabsPartitionReports(user: Option<User>, reports: seq<DailyReport>)
    requires IsSuperAdmin(user)
    ensures multiset(FilteredReports(user, TabA, reports)) + multiset(FilteredReports(user, TabB, reports)) == multiset(reports)
  {
    var a := FilteredReports(user, TabA, reports);
    var b := FilteredReports(user, TabB, reports);
    forall x
      ensures (multiset(a) + multiset(b))[x] == multiset(reports)[x]
    {
      assert x.team == TeamA || x.team == TeamB;
    }
  }

  /** The unit-A administrator signed in through the mock login sees exactly
      unit A's reports, whichever tab value the page holds. */
  lemma UnitAAdminSeesOwnUnit(name: string, email: string, idSuffix: string, deviceNumber: nat, now: string, tab: Tab, reports: seq<DailyReport>)
    requires 1000 <= deviceNumber <= 9999
    ensures var u := Session.Login(name, email, TeamAAdmin, idSuffix, deviceNumber, now);
      forall x :: x in FilteredReports(Some(u), tab, reports) <==> x in reports && x.team == TeamA
  {
  }

  /** The unit-B administrator signed in through the mock login is shown
      unit A's reports and none of its own unit's. */
  lemma AsWrittenUnitBAdminSeesUnitA(name: string, email: string, idSuffix: string, deviceNumber: nat, now: string, tab: Tab, reports: seq<DailyReport>)
    requires 1000 <= deviceNumber <= 9999
    ensures var u := Session.Login(name, email, TeamBAdmin, idSuffix, deviceNumber, now);
      forall x :: x in FilteredReports(Some(u), tab, reports) <==> x in reports && x.team == TeamA
  {
  }

  /** With the unit read from the role's suffix, each unit administrator sees
      exactly its own unit's reports. */
  lemma CorrectedLoginUnitAdminSeesOwnUnit(name: string, email: string, role: Role, idSuffix: string, deviceNumber: nat, now: string, tab: Tab, reports: seq<DailyReport>)
    requires 1000 <= deviceNumber <= 9999
    requires role == TeamAAdmin || role == TeamBAdmin
    ensures var u := Session.LoginCorrected(name, email, role, idSuffix, deviceNumber, now);
      forall x :: x in FilteredReports(Some(u), tab, reports) <==> x in reports && x.team == Policy.UnitOf(role)
  {
  }

  /** Nobody signed in: no report is listed. */
  lemma SignedOutSeesNoReports(tab: Tab, reports: seq<DailyReport>)
    ensures FilteredReports(None, tab, reports) == []
  {
  }

  /** The sync-compliance panel: the global administrator sees the tab's
      unit, every other administrator sees every loaded employee. */
  function VisibleEmployees(user: Option<User>, tab: Tab, employees: seq<User>): (r: seq<User>)
    ensures IsSubsequence(r, employees)
    ensures forall e :: e in r <==> e in employees && (!IsSuperAdmin(user) || e.team == TabTeam(tab))
    ensures forall e :: multiset(r)[e] == if !IsSuperAdmin(user) || e.team == TabTeam(tab) then multiset(employees)[e] else 0
  {
    Filter(employees, (e: User) => if IsSuperAdmin(user) then e.team == TabTeam(tab) else true)
  }

  /** The panel hides nothing from a unit administrator, and never shows the
      global administrator an employee of no unit under either tab. */
  lemma EmployeePanelScope(user: Option<User>, tab: Tab, employees: seq<User>, e: User)
    ensures !IsSuperAdmin(user) ==> VisibleEmployees(user, tab, employees) == employees
    ensures IsSuperAdmin(user) && e.team == NoTeam ==> e !in VisibleEmployees(user, tab, employees)
  {
    if !IsSuperAdmin(user) {
      FilterKeepsAll(employees, (e: User) => if IsSuperAdmin(user) then e.team == TabTeam(tab) else true);
    }
  }

  /** The review buttons of a report: approve and reject while it is
      pending, none once it is decided. */
  function ReviewActions(status: ReportStatus): (r: seq<ReportStatus>)
    ensures |r| > 0 <==> status == ReportStatus.Pending
    ensures status == ReportStatus.Pending ==> Approved in r && Rejected in r
    ensures forall s :: s in r ==> s != ReportStatus.Pending
  {
    if status == ReportStatus.Pending then [Approved, Rejected] else []
  }

  /** A decision is final on this page: a report given either decision offers
      no further buttons. */
  lemma ReviewIsFinal(status: ReportStatus)
    ensures forall s :: s in ReviewActions(status) ==> ReviewActions(s) == []
  {
  }

  /** One bar of the activity chart; a series shorter than the day list
      leaves the later bars without a value. */
  datatype ChartPoint = ChartPoint(name: string, calls: Option<int>, duration: Option<int>)

  /** `i`-th value of a series, if there is one. */
  function At(series: seq<int>, i: nat): Option<int> {
    if i < |series| then Some(series[i]) else None
  }

  /** The chart: one bar per day, paired by position with both series. */
  function ChartSeries(days: seq<string>, seriesA: seq<int>, seriesB: seq<int>): (r: seq<ChartPoint>)
    ensures |r| == |days|
    ensures forall i :: 0 <= i < |days| ==> r[i].name == days[i] && r[i].calls == At(seriesA, i) && r[i].duration == At(seriesB, i)
    decreases |days|
  {
    if |days| == 0 then []
    else ChartSeries(days[..|days| - 1], seriesA, seriesB) + [ChartPoint(days[|days| - 1], At(seriesA, |days| - 1), At(seriesB, |days| - 1))]
  }

  /** A new day with a value in each series adds one bar at the end and
      changes none of the earlier bars. */
  lemma ChartSeriesExtends(days: seq<string>, seriesA: seq<int>, seriesB: seq<int>, day: string, calls: int, duration: int)
    requires |seriesA| == |days| && |seriesB| == |days|
    ensures ChartSeries(days + [day], seriesA + [calls], seriesB + [duration])
      == ChartSeries(days, seriesA, seriesB) + [ChartPoint(day, Some(calls), Some(duration))]
  {
    var longer := ChartSeries(days + [day], seriesA + [calls], seriesB + [duration]);
    var shorter := ChartSeries(days, seriesA, seriesB) + [ChartPoint(day, Some(calls), Some(duration))];
    forall i | 0 <= i < |longer|
      ensures longer[i] == shorter[i]
    {
      if i < |days| {
        assert (days + [day])[i] == days[i];
      }
    }
  }
}
