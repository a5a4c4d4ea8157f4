/** The calls page of the client (`pages/CallsPage.tsx`): which call records
    the signed-in user is shown, the search box, the outcome and notes edits,
    the single expanded row, the playback lock and the duration display. */
module CallsPage {
  import opened Collections
  import opened Text
  import opened Types
  import Policy

  // ---------------------------------------------------------------------
  // Visibility

  /** The scope the page applies: the signed-in user's, and that of an
      employee when nobody is signed in. */
  function ViewerScope(user: Option<User>): Policy.Scope {
    if user.Some? then Policy.ScopeOf(user.value.role) else Policy.OwnOnly
  }

  /** The page's notion of "my call": the placeholder owner `me`, or a call
      whose operator name is the signed-in user's name. */
  predicate IsOwnCall(user: Option<User>, c: CallLog) {
    c.employeeId == "me" || (user.Some? && c.employeeName == user.value.name)
  }

  /** The role filter applied to the loaded records: the global administrator
      keeps everything, a unit administrator keeps its unit's calls, anyone
      else keeps its own calls. */
  function RoleFilter(user: Option<User>, raw: seq<CallLog>): (r: seq<CallLog>)
    ensures IsSubsequence(r, raw)
    ensures forall c :: c in r <==> c in raw && Policy.InScope(ViewerScope(user), c.employeeTeam, IsOwnCall(user, c))
    ensures forall c ::
      multiset(r)[c] == if Policy.InScope(ViewerScope(user), c.employeeTeam, IsOwnCall(user, c)) then multiset(raw)[c] else 0
  {
    if user.Some? && user.value.role == SuperAdmin then
      SubsequenceReflexive(raw);
      raw
    else if user.Some? && user.value.role == TeamAAdmin then
      Filter(raw, (c: CallLog) => c.employeeTeam == TeamA)
    else if user.Some? && user.value.role == TeamBAdmin then
      Filter(raw, (c: CallLog) => c.employeeTeam == TeamB)
    else
      Filter(raw, (c: CallLog) => c.employeeId == "me" || (user.Some? && c.employeeName == user.value.name))
  }

  /** With nobody signed in, only calls owned by the placeholder `me` survive. */
  lemma SignedOutSeesOnlyPlaceholderCalls(raw: seq<CallLog>)
    ensures forall c :: c in RoleFilter(None, raw) <==> c in raw && c.employeeId == "me"
  {
  }

  // ---------------------------------------------------------------------
  // Search

  /** `x || ''`: an absent text field reads as the empty string. */
  function OrEmpty(s: Option<string>): string {
    if s.Some? then s.value else ""
  }

  /** The case-insensitive part of the search: contact or operator name. */
  predicate NameMatches(c: CallLog, term: string) {
    Contains(Lower(OrEmpty(c.contactName)), Lower(term)) || Contains(Lower(c.employeeName), Lower(term))
  }

  /** A call matches a search term when its phone number contains the term
      verbatim, or either name contains it ignoring case. */
  predicate MatchesSearch(c: CallLog, term: string) {
    Contains(OrEmpty(c.phoneNumber), term) || NameMatches(c, term)
  }

  /** The calls the table shows for a search term, in list order. */
  function SearchCalls(calls: seq<CallLog>, term: string): (r: seq<CallLog>)
    ensures IsSubsequence(r, calls)
    ensures forall c :: c in r <==> c in calls && MatchesSearch(c, term)
    ensures forall c :: multiset(r)[c] == if MatchesSearch(c, term) then multiset(calls)[c] else 0
    ensures term == "" ==> r == calls
  {
    if term == "" then
      assert forall c :: c in calls ==> MatchesSearch(c, term) by {
        forall c | c in calls
          ensures MatchesSearch(c, term)
        {
          assert IsPrefix(term, OrEmpty(c.phoneNumber));
        }
      }
      FilterKeepsAll(calls, (c: CallLog) => MatchesSearch(c, term));
      Filter(calls, (c: CallLog) => MatchesSearch(c, term))
    else
      Filter(calls, (c: CallLog) => MatchesSearch(c, term))
  }

  /** Name matching ignores the case of the term. */
  lemma NameMatchIgnoresTermCase(c: CallLog, term: string)
    ensures NameMatches(c, term) <==> NameMatches(c, Lower(term))
  {
    LowerIdempotent(term);
  }

  /** Typing more narrows the list: a call shown for a longer term that
      contains a shorter one is also shown for the shorter one. */
  lemma SearchNarrows(c: CallLog, shorter: string, longer: string)
    requires Contains(longer, shorter)
    requires MatchesSearch(c, longer)
    ensures MatchesSearch(c, shorter)
  {
    LowerPreservesContains(longer, shorter);
    if Contains(OrEmpty(c.phoneNumber), longer) {
      ContainsTransitive(OrEmpty(c.phoneNumber), longer, shorter);
    } else if Contains(Lower(OrEmpty(c.contactName)), Lower(longer)) {
      ContainsTransitive(Lower(OrEmpty(c.contactName)), Lower(longer), Lower(shorter));
    } else {
      ContainsTransitive(Lower(c.employeeName), Lower(longer), Lower(shorter));
    }
  }

  // ---------------------------------------------------------------------
  // Edits

  /** `calls.map(c => c.id === id ? edit(c) : c)`. */
  function EditWhere(calls: seq<CallLog>, id: string, edit: CallLog -> CallLog): (r: seq<CallLog>)
    ensures |r| == |calls|
    ensures forall i :: 0 <= i < |calls| ==> r[i] == if calls[i].id == id then edit(calls[i]) else calls[i]
    decreases |calls|
  {
    if |calls| == 0 then []
    else [if calls[0].id == id then edit(calls[0]) else calls[0]] + EditWhere(calls[1..], id, edit)
  }

  /** The list and the open detail view of the page. */
  datatype View = View(calls: seq<CallLog>, selected: Option<CallLog>)

  /** Records an outcome on every call with the given id, and on the open
      detail view when it shows that call. */
  function UpdateOutcome(v: View, id: string, outcome: CallOutcome): (r: View)
    ensures |r.calls| == |v.calls|
    ensures forall i :: 0 <= i < |v.calls| ==>
      r.calls[i].(outcome := v.calls[i].outcome) == v.calls[i] &&
      r.calls[i].outcome == if v.calls[i].id == id then Some(outcome.Tag()) else v.calls[i].outcome
    ensures r.selected.Some? <==> v.selected.Some?
    ensures v.selected.Some? ==>
      r.selected.value.(outcome := v.selected.value.outcome) == v.selected.value &&
      r.selected.value.outcome == if v.selected.value.id == id then Some(outcome.Tag()) else v.selected.value.outcome
  {
    var calls := EditWhere(v.calls, id, (c: CallLog) => c.(outcome := Some(outcome.Tag())));
    if v.selected.Some? && v.selected.value.id == id then
      View(calls, Some(v.selected.value.(outcome := Some(outcome.Tag()))))
    else
      View(calls, v.selected)
  }

  /** Recording the same outcome twice is recording it once. */
  lemma UpdateOutcomeIdempotent(v: View, id: string, outcome: CallOutcome)
    ensures UpdateOutcome(UpdateOutcome(v, id, outcome), id, outcome) == UpdateOutcome(v, id, outcome)
  {
    var once := UpdateOutcome(v, id, outcome);
    var twice := UpdateOutcome(once, id, outcome);
    assert twice.calls == once.calls;
  }

  /** An open detail view that shows a listed call still shows a listed call
      after an outcome is recorded. */
  lemma SelectionStaysListed(v: View, id: string, outcome: CallOutcome)
    requires v.selected.Some? && v.selected.value in v.calls
    ensures UpdateOutcome(v, id, outcome).selected.value in UpdateOutcome(v, id, outcome).calls
  {
    var r := UpdateOutcome(v, id, outcome);
    var i :| 0 <= i < |v.calls| && v.calls[i] == v.selected.value;
    assert r.calls[i] == r.selected.value;
  }

  /** Stores the notes typed into the open detail view on every call with
      the viewed call's id; the detail view itself keeps what it showed. The
      notes field only exists while a call is open. */
  function UpdateNotes(v: View, text: string): (r: View)
    requires v.selected.Some?
    ensures r.selected == v.selected
    ensures |r.calls| == |v.calls|
    ensures forall i :: 0 <= i < |v.calls| ==>
      r.calls[i].(notes := v.calls[i].notes) == v.calls[i] &&
      r.calls[i].notes == if v.calls[i].id == v.selected.value.id then Some(text) else v.calls[i].notes
  {
    View(EditWhere(v.calls, v.selected.value.id, (c: CallLog) => c.(notes := Some(text))), v.selected)
  }

  /** The last notes written win. */
  lemma UpdateNotesLastWins(v: View, first: string, second: string)
    requires v.selected.Some?
    ensures UpdateNotes(UpdateNotes(v, first), second) == UpdateNotes(v, second)
  {
    var a := UpdateNotes(UpdateNotes(v, first), second);
    var b := UpdateNotes(v, second);
    assert a.calls == b.calls;
  }

  // ---------------------------------------------------------------------
  // Row expansion

  /** Clicking a row's expand icon: collapse it if it is the open row,
      otherwise open it (closing any other). */
  function ToggleExpand(expanded: Option<string>, id: string): (r: Option<string>)
    ensures r.None? || r == Some(id)
    ensures r == Some(id) <==> expanded != Some(id)
  {
    if expanded == Some(id) then None else Some(id)
  }

  /** Clicking the same icon twice restores the page exactly when no other
      row was open before. */
  lemma ToggleTwice(expanded: Option<string>, id: string)
    ensures ToggleExpand(ToggleExpand(expanded, id), id) == expanded <==> expanded.None? || expanded == Some(id)
  {
  }

  /** The rows drawn expanded. */
  function ExpandedRows(rows: seq<CallLog>, expanded: Option<string>): (r: seq<CallLog>)
    ensures forall c :: c in r <==> c in rows && expanded == Some(c.id)
    ensures forall c :: multiset(r)[c] == if expanded == Some(c.id) then multiset(rows)[c] else 0
  {
    Filter(rows, (c: CallLog) => expanded == Some(c.id))
  }

  /** No two listed calls share an id. */
  predicate DistinctIds(rows: seq<CallLog>) {
    forall i, j :: 0 <= i < j < |rows| ==> rows[i].id != rows[j].id
  }

  /** With distinct ids, at most one row is ever drawn expanded. */
  lemma {:induction false} AtMostOneExpanded(rows: seq<CallLog>, expanded: Option<string>)
    requires DistinctIds(rows)
    ensures |ExpandedRows(rows, expanded)| <= 1
    decreases |rows|
  {
    if |rows| > 0 {
      var rest := rows[1..];
      assert rows == [rows[0]] + rest;
      if expanded == Some(rows[0].id) {
        assert forall c :: c in rest ==> !(expanded == Some(c.id)) by {
          forall c | c in rest
            ensures expanded != Some(c.id)
          {
            var j :| 0 <= j < |rest| && rest[j] == c;
            assert rows[j + 1] == c;
          }
        }
        FilterKeepsNone(rest, (c: CallLog) => expanded == Some(c.id));
      } else {
        assert DistinctIds(rest) by {
          forall i, j | 0 <= i < j < |rest|
            ensures rest[i].id != rest[j].id
          {
            assert rows[i + 1] == rest[i] && rows[j + 1] == rest[j];
          }
        }
        AtMostOneExpanded(rest, expanded);
      }
    }
  }

  // ---------------------------------------------------------------------
  // Playback and duration

  /** Who may play a recording on this page: the global administrator, or
      the call's own operator. */
  predicate CanAccessPlayback(user: Option<User>, c: CallLog) {
    (user.Some? && user.value.role == SuperAdmin) || c.employeeId == "me" || (user.Some? && c.employeeName == user.value.name)
  }

  /** The player is drawn for a call with a (non-empty) recording link the
      user may access; otherwise the row shows the lock. */
  predicate ShowsPlayer(user: Option<User>, c: CallLog) {
    OrEmpty(c.recordingUrl) != "" && CanAccessPlayback(user, c)
  }

  /** The page's playback rule is "everything or own": a unit administrator
      gets no playback for its unit's calls, unlike the list rule. */
  lemma PlaybackIsEverythingOrOwn(user: Option<User>, c: CallLog)
    ensures CanAccessPlayback(user, c) <==> ViewerScope(user) == Policy.Everything || IsOwnCall(user, c)
  {
  }

  /** A unit administrator is shown the unit's calls by others but can play
      none of them. */
  lemma UnitAdminListsButCannotPlay(user: User, raw: seq<CallLog>, c: CallLog)
    requires user.role == TeamAAdmin || user.role == TeamBAdmin
    requires c in raw && c.employeeTeam == Policy.UnitOf(user.role)
    requires c.employeeId != "me" && c.employeeName != user.name
    ensures c in RoleFilter(Some(user), raw)
    ensures !ShowsPlayer(Some(user), c)
  {
  }

  /** The page draws the player regardless of the call's consent flag. */
  lemma PlaybackIgnoresConsent(user: Option<User>, c: CallLog, consent: Option<bool>)
    ensures ShowsPlayer(user, c) <==> ShowsPlayer(user, c.(recordingConsent := consent))
  {
  }

  /** Minutes and seconds as displayed: `Math.floor(d / 60)` and the
      truncating remainder `d % 60`. */
  datatype Duration = Duration(minutes: int, seconds: int)

  function SplitDuration(d: int): (r: Duration)
    ensures d >= 0 ==> r.minutes >= 0 && 0 <= r.seconds < 60 && r.minutes * 60 + r.seconds == d
    ensures d < 0 ==> r.minutes < 0 && -60 < r.seconds <= 0
  {
    Duration(d / 60, if d >= 0 then d % 60 else -((-d) % 60))
  }
}
