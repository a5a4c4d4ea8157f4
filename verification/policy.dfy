/** The one access rule the server and the client both apply, stated once
    over the role enum. The handlers and the page filters spell the rule out
    again and again with string comparisons; each of them is proved to agree
    with this statement. */
module Policy {
  import opened Collections
  import opened Types

  /** Which rows a role may list: all of them, those of one unit, or only its own. */
  datatype Scope = Everything | Unit(team: Team) | OwnOnly

  /** The unit a role belongs to; the server's seed accounts pair each role
      with exactly this team. */
  function UnitOf(r: Role): Team {
    match r
    case SuperAdmin => NoTeam
    case TeamAAdmin => TeamA
    case TeamAEmployee => TeamA
    case TeamBAdmin => TeamB
    case TeamBEmployee => TeamB
  }

  /** The global administrator lists everything, a unit administrator lists
      its unit, an employee lists only its own rows. */
  function ScopeOf(r: Role): Scope {
    if r == SuperAdmin then Everything
    else if r.IsAdmin() then Unit(UnitOf(r))
    else OwnOnly
  }

  /** The scope of a role given as free text (a request header): text that
      names no role is treated like an employee. */
  function ScopeOfTag(tag: string): Scope {
    match ParseRole(tag)
    case Some(r) => ScopeOf(r)
    case None => OwnOnly
  }

  /** Whether a row of unit `team`, which is or is not the viewer's own, lies in `s`. */
  predicate InScope(s: Scope, team: Team, own: bool) {
    match s
    case Everything => true
    case Unit(t) => t == team
    case OwnOnly => own
  }

  /** The text names one of the three administrator roles. */
  predicate IsAdminTag(tag: string) {
    ParseRole(tag).Some? && ParseRole(tag).value.IsAdmin()
  }

  /** Write authority over a row of unit `team`: the global administrator, or
      the administrator of that very unit. */
  predicate Governs(tag: string, team: Team) {
    match ParseRole(tag)
    case Some(r) => r == SuperAdmin || (r.IsAdmin() && UnitOf(r) == team)
    case None => false
  }

  /** The recording rule: clearance first (the call's owner, or authority over
      the call's unit), then consent, which only the global administrator may
      do without. */
  predicate MayHearRecording(tag: string, isOwner: bool, team: Team, consent: bool) {
    (isOwner || Governs(tag, team)) && (consent || ScopeOfTag(tag) == Everything)
  }

  /** Write authority and list scope coincide for administrators: an
      administrator governs exactly the rows its list shows (ownership aside). */
  lemma GovernsIsAdminScope(tag: string, team: Team)
    ensures Governs(tag, team) <==> IsAdminTag(tag) && InScope(ScopeOfTag(tag), team, false)
  {
  }

  /** Below the global administrator, authority is a unit administrator's
      over its own unit only: none over the other unit's rows or rows of no
      unit, and an employee has authority over nothing, its own unit included. */
  lemma NoCrossUnitAuthority(r: Role, team: Team)
    requires r != SuperAdmin
    ensures Governs(r.Tag(), team) <==> r.IsAdmin() && team == UnitOf(r)
    ensures r.IsEmployee() || team != UnitOf(r) ==> !Governs(r.Tag(), team)
  {
    ParseRoleInvertsTag(r);
  }

  /** The scope rule, spelled out as the string comparisons the handlers and
      pages make on a role's text. */
  lemma ScopeOfTagSpelledOut(tag: string)
    ensures ScopeOfTag(tag) ==
      if tag == "super_admin" then Everything
      else if tag == "team_admin_a" then Unit(TeamA)
      else if tag == "team_admin_b" then Unit(TeamB)
      else OwnOnly
    ensures IsAdminTag(tag) <==> tag == "super_admin" || tag == "team_admin_a" || tag == "team_admin_b"
  {
  }

  /** The authority rule, spelled out as the handlers' `isSuperAdmin ||
      isCorrectTeamAdmin` test. */
  lemma GovernsSpelledOut(tag: string, team: Team)
    ensures Governs(tag, team) <==>
      tag == "super_admin" ||
      (tag == "team_admin_a" && team == TeamA) ||
      (tag == "team_admin_b" && team == TeamB)
  {
  }
}
