/** The users panel of the company settings: the company's users without the
    signed-in user, an e-mail search that starts at three characters, and
    add/remove actions that reload the list. */
module UsersSection {
  import opened Common
  import opened Domain
  import opened Session

  /** A search hit. */
  datatype SearchUser = SearchUser(id: string, name: string, email: string)

  /** The panel's state: company users, search hits, the list spinner, the
      add spinner and the id of the user being removed. */
  datatype Panel = Panel(users: seq<CompanyUser>, results: seq<SearchUser>, loading: bool, adding: bool, removing: Option<string>)

  /** How the list request settled: failed, answered without a `users`
      field, or answered with a list. */
  datatype UsersResponse = RequestFailed | NoUsers | Users(list: seq<CompanyUser>)

  /** The users kept from a response: every user whose id differs from the
      stored user's id (every user when none is stored). */
  function WithoutCurrent(list: seq<CompanyUser>, currentId: Option<string>): (r: seq<CompanyUser>)
    ensures IsSubseq(r, list)
    ensures forall u :: u in r ==> Some(u.id) != currentId
    ensures forall u :: u in list && Some(u.id) != currentId ==> u in r
  {
    Filter((u: CompanyUser) => Some(u.id) != currentId, list)
  }

  /** The signed-in user never lists themself; with no stored id nobody is hidden. */
  lemma CurrentUserHidden(list: seq<CompanyUser>, s: Storage)
    ensures forall u :: u in WithoutCurrent(list, StoredProfile(s).id) ==> StoredProfile(s).id != Some(u.id)
    ensures StoredProfile(s).id.None? ==> WithoutCurrent(list, StoredProfile(s).id) == list
  {
    if StoredProfile(s).id.None? {
      FilterKeepsAll((u: CompanyUser) => Some(u.id) != StoredProfile(s).id, list);
    }
  }

  /** `fetchCompanyUsers`: nothing without a company id; a failure empties
      the list; an answer without `users` keeps the old list; loading ends in
      every case that reached the request. */
  function FetchUsers(p: Panel, companyId: string, s: Storage, response: UsersResponse): (r: Panel)
    ensures companyId == "" ==> r == p
    ensures companyId != "" ==> !r.loading && r.results == p.results && r.adding == p.adding && r.removing == p.removing
    ensures companyId != "" && response.RequestFailed? ==> r.users == []
    ensures companyId != "" && response.NoUsers? ==> r.users == p.users
    ensures companyId != "" && response.Users? ==> r.users == WithoutCurrent(response.list, StoredProfile(s).id)
  {
    if companyId == "" then p
    else
      match response
      case RequestFailed => p.(users := [], loading := false)
      case NoUsers => p.(loading := false)
      case Users(list) => p.(users := WithoutCurrent(list, StoredProfile(s).id), loading := false)
  }

  /** The minimum e-mail length that issues a search. */
  const SearchThreshold: nat := 3

  /** What typing into the search box does: whether a request is issued and
      the hits shown once it settles (None is a failed request). */
  datatype SearchOutcome = SearchOutcome(requested: bool, results: seq<SearchUser>)

  /** The search box's `onChange`: a request only once the e-mail has three
      UTF-16 code units (JavaScript's `length`). */
  function SearchInput(email: string, response: Option<seq<SearchUser>>): (r: SearchOutcome)
    ensures r.requested <==> Utf16Length(email) >= SearchThreshold
    ensures !r.requested ==> r.results == []
    ensures r.requested && response.Some? ==> r.results == response.value
    ensures response.None? ==> r.results == []
  {
    if Utf16Length(email) >= SearchThreshold then SearchOutcome(true, response.GetOr([]))
    else SearchOutcome(false, [])
  }

  /** Short inputs clear the hits whatever the server would have answered. */
  lemma ShortInputClears(email: string, a: Option<seq<SearchUser>>, b: Option<seq<SearchUser>>)
    requires Utf16Length(email) < SearchThreshold
    ensures SearchInput(email, a) == SearchInput(email, b) == SearchOutcome(false, [])
  {
  }

  /** Two characters above U+FFFF already make four code units, enough to search. */
  lemma AstralCharactersCountTwice(response: Option<seq<SearchUser>>)
    ensures SearchInput("\U{1F600}\U{1F600}", response).requested
    ensures !SearchInput("ab", response).requested
  {
    assert "\U{1F600}\U{1F600}"[1..][1..] == [];
  }

  /** Starting to add a user: None without a company id. */
  function BeginAdd(p: Panel, companyId: string): (r: Option<Panel>)
    ensures r.None? <==> companyId == ""
    ensures r.Some? ==> r.value == p.(adding := true)
  {
    if companyId == "" then None else Some(p.(adding := true))
  }

  /** An add settles: on success the list is reloaded and the hits cleared;
      on failure both stay; the spinner stops. */
  function FinishAdd(p: Panel, companyId: string, added: bool, s: Storage, reload: UsersResponse): (r: Panel)
    ensures !r.adding
    ensures added ==> r.results == [] && r.users == FetchUsers(p, companyId, s, reload).users
    ensures !added ==> r == p.(adding := false)
  {
    if added then FetchUsers(p, companyId, s, reload).(results := [], adding := false)
    else p.(adding := false)
  }

  /** Starting to remove a user: no confirmation is asked, only a company id. */
  function BeginRemove(p: Panel, companyId: string, userId: string): (r: Option<Panel>)
    ensures r.None? <==> companyId == ""
    ensures r.Some? ==> r.value == p.(removing := Some(userId))
  {
    if companyId == "" then None else Some(p.(removing := Some(userId)))
  }

  /** A removal settles: on success the list is reloaded; the marker clears. */
  function FinishRemove(p: Panel, companyId: string, removed: bool, s: Storage, reload: UsersResponse): (r: Panel)
    ensures r.removing.None?
    ensures removed ==> r == FetchUsers(p, companyId, s, reload).(removing := None)
    ensures !removed ==> r == p.(removing := None)
  {
    if removed then FetchUsers(p, companyId, s, reload).(removing := None) else p.(removing := None)
  }

  /** After any add or remove that reloaded a list, the signed-in user is still absent. */
  lemma ReloadKeepsCurrentHidden(p: Panel, companyId: string, s: Storage, list: seq<CompanyUser>, u: CompanyUser)
    requires companyId != ""
    requires StoredProfile(s).id == Some(u.id)
    ensures u !in FinishAdd(p, companyId, true, s, Users(list)).users
    ensures u !in FinishRemove(p, companyId, true, s, Users(list)).users
  {
  }
}
