/** The company shell: the layout that loads the company and decides who the
    current user is in it, and the sidebar whose entries depend on whether
    that user created the company. */
module Layout {
  import opened Common
  import opened Domain
  import opened Session
  import opened Routing

  /** `company.createdBy === localUser.id`: no stored id never matches. */
  predicate IsCreator(c: Company, stored: Profile)
    ensures IsCreator(c, stored) ==> stored.id.Some? && stored.id.value == c.createdBy
    ensures stored.id.None? ==> !IsCreator(c, stored)
  {
    stored.id == Some(c.createdBy)
  }

  lemma NoStoredUserIsNoCreator(c: Company, s: Storage)
    requires s.user.None?
    ensures !IsCreator(c, StoredProfile(s))
  {
  }

  /** What the top bar shows for the current user. */
  datatype UserDetail = UserDetail(name: string, email: string, roles: seq<string>)

  /** `userDetail`: the first company user with the stored id, or the stored name
      and e-mail (empty when missing) with no roles. */
  function FindUserDetail(c: Company, stored: Profile): (d: UserDetail)
    ensures stored.id.None? || (forall i :: 0 <= i < |c.users| ==> c.users[i].id != stored.id.value) ==>
      d == UserDetail(stored.name.GetOr(""), stored.email.GetOr(""), [])
    ensures stored.id.Some? && (exists i :: 0 <= i < |c.users| && c.users[i].id == stored.id.value) ==>
      exists i :: FirstWithId(c.users, stored.id.value, i) &&
        d == UserDetail(c.users[i].name, c.users[i].email, c.users[i].roles)
  {
    var found := if stored.id.None? then None else Find((u: CompanyUser) => u.id == stored.id.value, c.users);
    match found
    case Some(u) => UserDetail(u.name, u.email, u.roles)
    case None => UserDetail(stored.name.GetOr(""), stored.email.GetOr(""), [])
  }

  /** When the company lists the stored id more than once, the top bar
      shows the first entry, never a later one. */
  lemma FirstListedUserShown(c: Company, stored: Profile, i: int)
    requires stored.id.Some? && FirstWithId(c.users, stored.id.value, i)
    ensures FindUserDetail(c, stored) == UserDetail(c.users[i].name, c.users[i].email, c.users[i].roles)
  {
    var k :| FirstWithId(c.users, stored.id.value, k) &&
      FindUserDetail(c, stored) == UserDetail(c.users[k].name, c.users[k].email, c.users[k].roles);
    FirstWithIdUnique(c.users, stored.id.value, i, k);
  }

  /** `onNavigate`: an absolute path is used as is, anything else is taken
      relative to the company. */
  function OnNavigate(companyId: string, path: string): (target: string)
    ensures StartsWith(path, "/") ==> target == path
    ensures !StartsWith(path, "/") ==> target == CompaniesPrefix + companyId + "/" + path
    ensures StartsWith(target, "/")
  {
    if StartsWith(path, "/") then path else CompaniesPrefix + companyId + "/" + path
  }

  /** The layout's state. */
  datatype LayoutState = LayoutState(company: Option<Company>, loading: bool, error: string)

  const InitialLayout: LayoutState := LayoutState(None, true, "")

  /** How the company request settled. */
  datatype CompanyOutcome = Loaded(company: Company) | LoadFailed(failure: Failure)

  const LoadError: string := "Не удалось загрузить данные"

  /** The company effect: nothing without an id (the spinner stays); a
      loaded company is stored; a failure stores the server message or the
      default text; loading ends either way. */
  function FetchCompany(st: LayoutState, companyId: string, outcome: CompanyOutcome): (r: LayoutState)
    ensures companyId == "" ==> r == st
    ensures companyId != "" ==> !r.loading
    ensures companyId != "" && outcome.Loaded? ==> r == st.(company := Some(outcome.company), loading := false)
    ensures companyId != "" && outcome.LoadFailed? ==>
      r == st.(error := MessageOr(outcome.failure, LoadError), loading := false)
  {
    if companyId == "" then st
    else match outcome
      case Loaded(c) => st.(company := Some(c), loading := false)
      case LoadFailed(f) => st.(error := MessageOr(f, LoadError), loading := false)
  }

  /** What the layout renders. */
  datatype LayoutView =
    | Spinner
    | ErrorMessage(text: string)
    | NotFound
    | Shell(companyName: string, user: UserDetail, isCreator: bool)

  /** The render precedence: loading, then error, then missing company,
      then the shell for the stored user. */
  function Render(st: LayoutState, s: Storage): (v: LayoutView)
    ensures st.loading ==> v == Spinner
    ensures !st.loading && st.error != "" ==> v == ErrorMessage(st.error)
    ensures !st.loading && st.error == "" && st.company.None? ==> v == NotFound
    ensures v.Shell? <==> !st.loading && st.error == "" && st.company.Some?
    ensures v.Shell? ==>
      && v.isCreator == IsCreator(st.company.value, StoredProfile(s))
      && v.user == FindUserDetail(st.company.value, StoredProfile(s))
      && v.companyName == st.company.value.name
  {
    if st.loading then Spinner
    else if st.error != "" then ErrorMessage(st.error)
    else match st.company
      case None => NotFound
      case Some(c) => Shell(c.name, FindUserDetail(c, StoredProfile(s)), IsCreator(c, StoredProfile(s)))
  }

  /** Without a company id the layout never leaves the spinner. */
  lemma NoIdSpinsForever(outcome: CompanyOutcome, s: Storage)
    ensures Render(FetchCompany(InitialLayout, "", outcome), s) == Spinner
  {
  }

  /** A failed load always shows a non-empty error. */
  lemma FailureShowsError(companyId: string, f: Failure, s: Storage)
    requires companyId != ""
    ensures Render(FetchCompany(InitialLayout, companyId, LoadFailed(f)), s).ErrorMessage?
  {
  }

  // ---------------------------------------------------------------------------
  // The sidebar
  // ---------------------------------------------------------------------------

  /** A navigation entry: its label and the path handed to `onNavigate`. */
  datatype MenuEntry = MenuEntry(caption: string, path: string)

  /** The utility buttons at the bottom of the sidebar. */
  datatype Utility = NavigateButton(caption: string, path: string) | LogoutButton(caption: string)

  /** The navigation list: the creator sees the company-wide sections
      including roles; everybody else sees their own OKR and statistics. */
  function Menu(isCreator: bool): (m: seq<MenuEntry>)
    ensures isCreator ==> |m| == 5
    ensures !isCreator ==> |m| == 4
    ensures forall i :: 0 <= i < |m| ==> m[i].path != "" && m[i].path[0] != '/'
  {
    if isCreator then
      [MenuEntry("OKR", "okr"), MenuEntry("Участники", "participants"), MenuEntry("Команды", "teams"),
       MenuEntry("Роли", "roles"), MenuEntry("Статистика", "statistics")]
    else
      [MenuEntry("Мои OKR", "okr"), MenuEntry("Участники", "participants"), MenuEntry("Команды", "teams"),
       MenuEntry("Моя статистика", "statistics")]
  }

  /** The utility buttons: switching company and logging out always, company
      settings only for the creator. */
  function Utilities(isCreator: bool): (u: seq<Utility>)
    ensures |u| >= 2
    ensures u[0] == NavigateButton("Сменить компанию", "/")
    ensures u[|u| - 1].LogoutButton?
    ensures NavigateButton("Настройки компании", "settings") in u <==> isCreator
  {
    if isCreator then
      [NavigateButton("Сменить компанию", "/"), NavigateButton("Настройки компании", "settings"), LogoutButton("Выход")]
    else
      [NavigateButton("Сменить компанию", "/"), LogoutButton("Выход")]
  }

  predicate Offers(isCreator: bool, path: string) {
    exists i :: 0 <= i < |Menu(isCreator)| && Menu(isCreator)[i].path == path
  }

  /** Both menus reach the OKR, participants, teams and statistics
      sections; only the creator's reaches roles. */
  lemma MenusCompared(isCreator: bool)
    ensures Offers(isCreator, "okr") && Offers(isCreator, "participants")
    ensures Offers(isCreator, "teams") && Offers(isCreator, "statistics")
    ensures Offers(isCreator, "roles") <==> isCreator
  {
    var m := Menu(isCreator);
    assert m[0].path == "okr" && m[1].path == "participants" && m[2].path == "teams";
    if isCreator {
      assert m[3].path == "roles" && m[4].path == "statistics";
    } else {
      assert m[3].path == "statistics";
      assert forall i :: 0 <= i < |m| ==> m[i].path != "roles";
    }
  }

  /** Every section entry of the sidebar leads to a company path the route
      table does not define: only "Сменить компанию" reaches a screen. */
  lemma SidebarSectionsAreUnrouted(companyId: string, isCreator: bool, i: int)
    requires 0 <= i < |Menu(isCreator)|
    ensures Resolve(OnNavigate(companyId, Menu(isCreator)[i].path), Storage(Some("t"), None)) == NoMatch
    ensures Resolve(OnNavigate(companyId, "/"), Storage(Some("t"), None)) == CompaniesScreen
  {
    var e := Menu(isCreator)[i];
    assert !StartsWith(e.path, "/");
    assert e.path[0] != '/';
    SectionPathsAreUnrouted(companyId, e.path);
  }
}
