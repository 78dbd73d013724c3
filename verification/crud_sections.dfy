/** The roles and teams panels of the company settings: a list loaded from
    the server, a create form (name and description) guarded by a non-blank
    name, and a per-item delete behind a confirmation, with markers for the
    request in flight. Both panels follow one scheme, modelled once over the
    item type; they differ in what the list request returns and in whether
    delete checks the company id. */
module CrudSections {
  import opened Common
  import opened Domain

  /** The create form. */
  datatype Draft = Draft(name: string, description: string)

  const EmptyDraft: Draft := Draft("", "")

  /** A panel's state: the list, the list spinner, the create spinner, the
      key of the item being deleted, and the form. */
  datatype Panel<T> = Panel(items: seq<T>, loading: bool, creating: bool, deleting: Option<string>, draft: Draft)

  /** The list request: nothing without a company id; a failure empties the
      list; loading ends either way. */
  function Fetch<T>(p: Panel<T>, companyId: string, fetched: Option<seq<T>>): (r: Panel<T>)
    ensures companyId == "" ==> r == p
    ensures companyId != "" ==> !r.loading && r.(items := p.items, loading := p.loading) == p
    ensures companyId != "" && fetched.None? ==> r.items == []
    ensures companyId != "" && fetched.Some? ==> r.items == fetched.value
  {
    if companyId == "" then p
    else p.(items := fetched.GetOr([]), loading := false)
  }

  /** The create button is disabled while a creation runs or the name is blank. */
  predicate CreateDisabled<T>(p: Panel<T>)
    ensures p.creating ==> CreateDisabled(p)
    ensures p.draft.name == "" ==> CreateDisabled(p)
    ensures !CreateDisabled(p) ==> exists i :: 0 <= i < |p.draft.name| && !IsSpace(p.draft.name[i])
  {
    BlankIffAllSpace(p.draft.name);
    p.creating || IsBlank(p.draft.name)
  }

  /** The create handler's guard: a company id and a name with a visible character. */
  predicate MayCreate<T>(p: Panel<T>, companyId: string)
    ensures MayCreate(p, companyId) ==> companyId != ""
    ensures MayCreate(p, companyId) <==> companyId != "" && exists i :: 0 <= i < |p.draft.name| && !IsSpace(p.draft.name[i])
  {
    BlankIffAllSpace(p.draft.name);
    companyId != "" && !IsBlank(p.draft.name)
  }

  /** Starting a creation: None when the guard stops the handler, otherwise
      the panel with its create spinner on. */
  function BeginCreate<T>(p: Panel<T>, companyId: string): (r: Option<Panel<T>>)
    ensures r.None? <==> !MayCreate(p, companyId)
    ensures r.Some? ==> r.value == p.(creating := true)
  {
    if MayCreate(p, companyId) then Some(p.(creating := true)) else None
  }

  /** A blank name sends nothing, whatever spaces it holds. */
  lemma BlankNameSendsNothing<T>(p: Panel<T>, companyId: string)
    requires forall i :: 0 <= i < |p.draft.name| ==> IsSpace(p.draft.name[i])
    ensures BeginCreate(p, companyId).None?
  {
    BlankIffAllSpace(p.draft.name);
  }

  /** An enabled button starts a creation (given a company id), and the
      button stays disabled until the creation settles. */
  lemma EnabledButtonCreates<T>(p: Panel<T>, companyId: string)
    requires companyId != "" && !CreateDisabled(p)
    ensures BeginCreate(p, companyId).Some?
    ensures CreateDisabled(BeginCreate(p, companyId).value)
  {
  }

  /** A creation settles: after a successful request the list is fetched
      again (that request cannot fail the handler) and the form empties; a
      failed request keeps list and form; the spinner stops. */
  function FinishCreate<T>(p: Panel<T>, companyId: string, created: bool, refetched: Option<seq<T>>): (r: Panel<T>)
    ensures !r.creating
    ensures created ==> r == Fetch(p, companyId, refetched).(creating := false, draft := EmptyDraft)
    ensures !created ==> r == p.(creating := false)
  {
    if created then Fetch(p, companyId, refetched).(creating := false, draft := EmptyDraft)
    else p.(creating := false)
  }

  /** Only a successful creation clears the form. */
  lemma DraftKeptOnFailure<T>(p: Panel<T>, companyId: string, refetched: Option<seq<T>>)
    ensures FinishCreate(p, companyId, false, refetched).draft == p.draft
    ensures FinishCreate(p, companyId, true, refetched).draft == EmptyDraft
  {
  }

  /** An item's delete button is disabled while that item is being deleted. */
  predicate DeleteDisabled<T>(p: Panel<T>, key: string) {
    p.deleting == Some(key)
  }

  /** Starting a delete: None without confirmation (or when the guard fails);
      otherwise the item's key is marked as in flight. */
  function BeginDelete<T>(p: Panel<T>, guardPassed: bool, confirmed: bool, key: string): (r: Option<Panel<T>>)
    ensures r.None? <==> !guardPassed || !confirmed
    ensures r.Some? ==> r.value == p.(deleting := Some(key))
  {
    if guardPassed && confirmed then Some(p.(deleting := Some(key))) else None
  }

  /** A delete settles: a successful one fetches the list again; the marker
      clears in every case. */
  function FinishDelete<T>(p: Panel<T>, companyId: string, deleted: bool, refetched: Option<seq<T>>): (r: Panel<T>)
    ensures r.deleting.None?
    ensures deleted ==> r == Fetch(p, companyId, refetched).(deleting := None)
    ensures !deleted ==> r == p.(deleting := None)
  {
    if deleted then Fetch(p, companyId, refetched).(deleting := None) else p.(deleting := None)
  }

  /** While a delete runs only its own button is disabled; afterwards none is. */
  lemma DeleteMarksOneItem<T>(p: Panel<T>, key: string, other: string, companyId: string, deleted: bool, refetched: Option<seq<T>>)
    ensures var q := BeginDelete(p, true, true, key).value;
      && DeleteDisabled(q, key)
      && (other != key ==> !DeleteDisabled(q, other))
      && !DeleteDisabled(FinishDelete(q, companyId, deleted, refetched), key)
  {
  }

  // ---------------------------------------------------------------------------
  // The two panels
  // ---------------------------------------------------------------------------

  /** The roles list request answers with `roles`, which may be missing (an
      empty list then); None is a failed request. */
  function RolesFetched(response: Option<Option<seq<Role>>>): (r: Option<seq<Role>>)
    ensures response.None? ==> r.None?
    ensures response.Some? ==> r == Some(response.value.GetOr([]))
  {
    match response
    case None => None
    case Some(roles) => Some(roles.GetOr([]))
  }

  /** The roles panel's `handleRemoveRole` guard: a company id and a confirmation. */
  function BeginRemoveRole(p: Panel<Role>, companyId: string, confirmed: bool, roleName: string): (r: Option<Panel<Role>>)
    ensures r.None? <==> companyId == "" || !confirmed
    ensures r.Some? ==> DeleteDisabled(r.value, roleName) && r.value.items == p.items
  {
    BeginDelete(p, companyId != "", confirmed, roleName)
  }

  /** A team as listed in the teams panel. */
  datatype TeamItem = TeamItem(id: string, name: string, description: string)

  /** The teams panel's `handleDeleteTeam` asks only for confirmation: it
      has no company-id guard. */
  function BeginDeleteTeam(p: Panel<TeamItem>, confirmed: bool, teamId: string): (r: Option<Panel<TeamItem>>)
    ensures r.None? <==> !confirmed
    ensures r.Some? ==> DeleteDisabled(r.value, teamId) && r.value.items == p.items
  {
    BeginDelete(p, true, confirmed, teamId)
  }

  /** The request body of `handleCreateTeam`: the form plus the company id. */
  datatype NewTeam = NewTeam(name: string, companyId: string, description: string)

  function CreateTeamRequest(p: Panel<TeamItem>, companyId: string): (r: Option<NewTeam>)
    ensures r.None? <==> !MayCreate(p, companyId)
    ensures r.Some? ==> r.value == NewTeam(p.draft.name, companyId, p.draft.description)
  {
    if MayCreate(p, companyId) then Some(NewTeam(p.draft.name, companyId, p.draft.description)) else None
  }

  /** The name is sent untrimmed: the guard only checks that it is not blank. */
  lemma TeamNameSentUntrimmed(p: Panel<TeamItem>, companyId: string)
    requires companyId != "" && p.draft.name == " A "
    ensures CreateTeamRequest(p, companyId) == Some(NewTeam(" A ", companyId, p.draft.description))
  {
    assert !IsSpace('A');
    assert p.draft.name[1] == 'A';
    BlankIffAllSpace(p.draft.name);
  }
}
