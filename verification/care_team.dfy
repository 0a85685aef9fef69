/** Choosing the care-team member who receives the follow-up task
    (`get_appropriate_care_team_member` and the fallback in `create_task`). */
module CareTeam {
  import opened LabDomain

  /** A member qualifies only when BOTH the role code and the role display
      match; matching one of the two is not enough. */
  predicate HoldsRole(m: CareTeamMembership) {
    m.role.code == ROLE_CODE && m.role.display == ROLE_DISPLAY
  }

  /** `i` is the position of the first qualifying member in care-team order. */
  ghost predicate IsFirstHolder(team: seq<CareTeamMembership>, i: int) {
    && 0 <= i < |team|
    && HoldsRole(team[i])
    && forall j :: 0 <= j < i ==> !HoldsRole(team[j])
  }

  /** Position of the first qualifying member, scanning the team front to back. */
  function FirstHolderIndex(team: seq<CareTeamMembership>): (r: Option<nat>)
    ensures r.Some? ==> IsFirstHolder(team, r.value)
    ensures r.None? ==> forall j :: 0 <= j < |team| ==> !HoldsRole(team[j])
  {
    if |team| == 0 then None
    else if HoldsRole(team[0]) then Some(0)
    else match FirstHolderIndex(team[1..])
      case Some(i) => Some(i + 1)
      case None => None
  }

  /** There is at most one first qualifying member. */
  lemma FirstHolderUnique(team: seq<CareTeamMembership>, i: int, k: int)
    requires IsFirstHolder(team, i) && IsFirstHolder(team, k)
    ensures i == k
  {
  }

  /** The staff key of the first qualifying member, or None when no member
      qualifies. */
  function AppropriateMember(team: seq<CareTeamMembership>): (r: Option<string>)
    ensures r.None? <==> forall j :: 0 <= j < |team| ==> !HoldsRole(team[j])
    ensures forall i :: IsFirstHolder(team, i) ==> r == Some(team[i].staff.key)
  {
    match FirstHolderIndex(team)
    case Some(i) =>
      assert forall k :: IsFirstHolder(team, k) ==> k == i by {
        forall k | IsFirstHolder(team, k) {
          FirstHolderUnique(team, i, k);
        }
      }
      Some(team[i].staff.key)
    case None => None
  }

  /** The task assignee: the selected member's key, or the fallback staff key
      when nobody qualifies or the selected key is empty (Python's `or`
      treats the empty string as false). */
  function Assignee(team: seq<CareTeamMembership>): (a: string)
    ensures a != ""
    ensures forall i :: IsFirstHolder(team, i) && team[i].staff.key != "" ==> a == team[i].staff.key
    ensures forall i :: IsFirstHolder(team, i) && team[i].staff.key == "" ==> a == FALLBACK_STAFF_KEY
    ensures (forall j :: 0 <= j < |team| ==> !HoldsRole(team[j])) ==> a == FALLBACK_STAFF_KEY
  {
    match AppropriateMember(team)
    case Some(k) => if k != "" then k else FALLBACK_STAFF_KEY
    case None => FALLBACK_STAFF_KEY
  }

  /** In the fallback case the assignee is the very identity that creates the
      task, because the fallback key and the bot key coincide. */
  lemma FallbackAssigneeIsCreator(team: seq<CareTeamMembership>)
    requires forall j :: 0 <= j < |team| ==> !HoldsRole(team[j])
    ensures Assignee(team) == CANVAS_BOT_KEY
  {
  }

  /** A member in front who does not hold the role (a partial match included)
      does not change the choice. */
  lemma NonHolderIsSkipped(m: CareTeamMembership, team: seq<CareTeamMembership>)
    requires !HoldsRole(m)
    ensures AppropriateMember([m] + team) == AppropriateMember(team)
  {
  }

  /** Once a member qualifies, members appended later never displace it:
      the earliest qualifying member wins. */
  lemma EarliestHolderWins(team: seq<CareTeamMembership>, more: seq<CareTeamMembership>)
    requires AppropriateMember(team).Some?
    ensures AppropriateMember(team + more) == AppropriateMember(team)
  {
    var i := FirstHolderIndex(team).value;
    var t := team + more;
    assert IsFirstHolder(t, i) by {
      forall j | 0 <= j < i ensures !HoldsRole(t[j]) {
        assert t[j] == team[j];
      }
    }
  }
}
