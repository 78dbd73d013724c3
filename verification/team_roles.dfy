/** The team roles page: the required roles of a team, the role search over
    the company roles, one selection Set shared by the required-roles list and
    the search results, select-all, and the bulk add/remove requests. */
module TeamRoles {
  import opened Common
  import opened Domain

  /** `team?.requiredRoles.includes(name)`: with no team loaded nothing is required. */
  predicate IsRequired(name: string, team: Option<Team>) {
    team.Some? && name in team.value.requiredRoles
  }

  /** The lower-cased name contains the lower-cased query, or the description
      is non-empty and its lower-cased form does. */
  predicate MatchesQuery(r: Role, query: string) {
    || Contains(LowerStr(r.name), LowerStr(query))
    || (r.description != "" && Contains(LowerStr(r.description), LowerStr(query)))
  }

  predicate Eligible(r: Role, query: string, team: Option<Team>) {
    !IsRequired(r.name, team) && MatchesQuery(r, query)
  }

  /** `handleSearch` for an explicit query. */
  function Search(query: string, roles: seq<Role>, team: Option<Team>): (res: seq<Role>)
    ensures IsBlank(query) ==> res == []
    ensures IsSubseq(res, roles)
    ensures forall i :: 0 <= i < |res| ==> !IsRequired(res[i].name, team) && MatchesQuery(res[i], query)
    ensures !IsBlank(query) ==> forall r :: r in roles ==> (r in res <==> Eligible(r, query, team))
  {
    if IsBlank(query) then []
    else Filter((r: Role) => Eligible(r, query, team), roles)
  }

  /** A role with an empty description is found by its name alone. */
  lemma EmptyDescriptionMatchesByName(r: Role, query: string)
    requires r.description == ""
    ensures MatchesQuery(r, query) <==> Contains(LowerStr(r.name), LowerStr(query))
  {
  }

  /** The names of the search results. */
  function ResultNames(results: seq<Role>): (names: set<string>)
    ensures forall n :: n in names <==> exists r :: r in results && r.name == n
  {
    set r | r in results :: r.name
  }

  /** Every result is selected. */
  predicate AllResultsSelected(selected: set<string>, results: seq<Role>) {
    forall r :: r in results ==> r.name in selected
  }

  /** `handleSelectAll` as written: it compares the selection's size with
      the number of results. */
  function SelectAll(selected: set<string>, results: seq<Role>): (r: set<string>)
    ensures |selected| == |results| ==> r == {}
    ensures |selected| != |results| ==> r == ResultNames(results)
  {
    if |selected| == |results| then {} else ResultNames(results)
  }

  /** The selection is shared with the required-roles list: two required
      roles ticked there, with two unselected search results, make select-all
      clear the selection instead of selecting the results. */
  lemma SelectAllMistakesForeignSelection()
    ensures var results := [Role("a", ""), Role("b", "")];
      var selected := {"x", "y"};
      && !AllResultsSelected(selected, results)
      && SelectAll(selected, results) == {}
      && !AllResultsSelected(SelectAll(selected, results), results)
  {
    var results := [Role("a", ""), Role("b", "")];
    assert results[0] in results;
    assert |{"x", "y"}| == 2;
  }

  /** Select-all as the comment describes it: deselect everything when every
      result is already selected, otherwise select exactly the results. */
  function SelectAllIntended(selected: set<string>, results: seq<Role>): (r: set<string>)
    ensures AllResultsSelected(selected, results) ==> r == {}
    ensures !AllResultsSelected(selected, results) ==> r == ResultNames(results)
  {
    if AllResultsSelected(selected, results) then {} else ResultNames(results)
  }

  /** With the corrected select-all, a click on a box that is not fully
      checked always checks every result, and a second click clears it. */
  lemma SelectAllIntendedSelectsResults(selected: set<string>, results: seq<Role>)
    requires !AllResultsSelected(selected, results)
    ensures AllResultsSelected(SelectAllIntended(selected, results), results)
    ensures results != [] ==> SelectAllIntended(SelectAllIntended(selected, results), results) == {}
  {
    var r := SelectAllIntended(selected, results);
    forall x | x in results
      ensures x.name in r
    {
    }
  }

  /** `handleRemoveRoles`: no request without a team or a selection;
      otherwise every selected role name. */
  function RemoveRequest(teamId: string, selected: set<string>): (r: Option<set<string>>)
    ensures r.None? <==> teamId == "" || |selected| == 0
    ensures r.Some? ==> r.value == selected
  {
    if teamId == "" || |selected| == 0 then None else Some(selected)
  }

  /** `handleAddRoles(roleNames)`: no request without a team or names. */
  function AddRequest(teamId: string, roleNames: seq<string>): (r: Option<seq<string>>)
    ensures r.None? <==> teamId == "" || |roleNames| == 0
    ensures r.Some? ==> r.value == roleNames
  {
    if teamId == "" || |roleNames| == 0 then None else Some(roleNames)
  }
}
