/** budget_policies and the choice GetBudgetPolicy makes among its rows. */
module Policies {
  import opened Core

  /** NULL limits are None; cost limits count units of 1e-8 USD. */
  datatype Limits = Limits(costHour: Option<int>, costDay: Option<int>, tokensHour: Option<int>, tokensDay: Option<int>)

  datatype PolicyRow = PolicyRow(org: Id, user: Option<Id>, team: Option<Id>, limits: Limits)

  /** UNIQUE NULLS NOT DISTINCT (org_id, user_id, team_id). */
  ghost predicate UniqueScopes(rows: seq<PolicyRow>) {
    forall i, j :: 0 <= i < j < |rows| ==> !SameScope(rows[i], rows[j])
  }

  predicate SameScope(a: PolicyRow, b: PolicyRow) {
    a.org == b.org && a.user == b.user && a.team == b.team
  }

  /** The WHERE clause; `team_id = NULL` is never true in SQL, so a NULL team only meets NULL. */
  predicate Matches(row: PolicyRow, who: Identity) {
    && row.org == who.org
    && (row.user == Some(who.user) || row.user.None?)
    && ((row.team.Some? && row.team == who.team) || row.team.None?)
  }

  /** ORDER BY (user_id IS NOT NULL) DESC, (team_id IS NOT NULL) DESC: does a come strictly before b? */
  predicate Before(a: PolicyRow, b: PolicyRow) {
    (a.user.Some? && b.user.None?) || (a.user.Some? == b.user.Some? && a.team.Some? && b.team.None?)
  }

  /** A row that ORDER BY ... LIMIT 1 is allowed to return. */
  ghost predicate IsFirst(rows: seq<PolicyRow>, who: Identity, row: PolicyRow) {
    row in rows && Matches(row, who) && forall other :: other in rows && Matches(other, who) ==> !Before(other, row)
  }

  function GetBudgetPolicy(rows: seq<PolicyRow>, who: Identity): (best: Option<PolicyRow>)
    ensures best.Some? ==> IsFirst(rows, who, best.value)
    ensures best.None? <==> forall row :: row in rows ==> !Matches(row, who)
  {
    if rows == [] then None
    else
      var rest := GetBudgetPolicy(rows[1..], who);
      if Matches(rows[0], who) && (rest.None? || !Before(rest.value, rows[0])) then Some(rows[0]) else rest
  }

  /** Under the unique constraint the query has one possible answer, whatever order the rows are in. */
  lemma PolicyChoiceIsDetermined(rows: seq<PolicyRow>, shuffled: seq<PolicyRow>, who: Identity)
    requires UniqueScopes(rows) && multiset(rows) == multiset(shuffled)
    ensures forall row :: IsFirst(rows, who, row) <==> GetBudgetPolicy(rows, who) == Some(row)
    ensures GetBudgetPolicy(shuffled, who) == GetBudgetPolicy(rows, who)
  {
    forall row, other | IsFirst(rows, who, row) && IsFirst(rows, who, other)
      ensures row == other
    {
      assert SameScope(row, other);
    }
    forall row: PolicyRow
      ensures row in rows <==> row in shuffled
    {
      assert row in multiset(rows) <==> row in multiset(shuffled);
    }
  }

  /** The documented order of specificity, as four exact lookups. */
  ghost predicate Scoped(rows: seq<PolicyRow>, row: PolicyRow, org: Id, user: Option<Id>, team: Option<Id>) {
    row in rows && row.org == org && row.user == user && row.team == team
  }

  ghost predicate HasScope(rows: seq<PolicyRow>, org: Id, user: Option<Id>, team: Option<Id>) {
    exists row :: Scoped(rows, row, org, user, team)
  }

  /** user+team, then user only, then team only, then org-wide; a request without a team skips the team scopes. */
  lemma MostSpecificPolicyWins(rows: seq<PolicyRow>, who: Identity, row: PolicyRow)
    requires UniqueScopes(rows)
    ensures GetBudgetPolicy(rows, who) == Some(row) <==>
      var user := Some(who.user);
      if who.team.Some? && HasScope(rows, who.org, user, who.team) then Scoped(rows, row, who.org, user, who.team)
      else if HasScope(rows, who.org, user, None) then Scoped(rows, row, who.org, user, None)
      else if who.team.Some? && HasScope(rows, who.org, None, who.team) then Scoped(rows, row, who.org, None, who.team)
      else Scoped(rows, row, who.org, None, None)
  {
    PolicyChoiceIsDetermined(rows, rows, who);
    forall other | other in rows && Matches(other, who)
      ensures Scoped(rows, other, who.org, other.user, other.team)
    {
    }
    if GetBudgetPolicy(rows, who) == Some(row) {
      assert IsFirst(rows, who, row);
    }
  }

  /** A request without a team never resolves to a team-scoped row. */
  lemma NullTeamNeverMatchesATeam(rows: seq<PolicyRow>, who: Identity)
    requires who.team.None?
    ensures GetBudgetPolicy(rows, who).Some? ==> GetBudgetPolicy(rows, who).value.team.None?
  {
  }
}
