# OKR front-end: client-side logic in Dafny

This project models the client-side rules of a React front-end for managing
OKRs (objectives and key results) in companies and teams. The server owns all
data. What the browser decides on its own is modelled here. Every event
handler becomes a pure function from the state before to the state after,
with the server's answer as a parameter:

- the token guard and the route table;
- the login and registration forms and the stored session;
- the company list, its cards and their roles line;
- the company shell: who counts as the company's creator, the sidebar menus,
  and relative navigation;
- the settings page, with its sub-page test and its three panels (users,
  teams, roles);
- the check-in editor: the edit of a key result's value, which is clamped
  and never below the persisted value unless that value exceeds the target, the progress formula, comment validation and check-in gating;
- the team OKR modal and list: the key-result editor, the parent link, the
  request body, enrichment with the linked corporate key result, and status
  changes;
- the corporate OKR form: its key-result editor, the team checkboxes and the
  team-name line;
- the selection screens: team members, team roles, a user's roles, and roles
  grouped with their users;
- the two statistics pages: pie data, status badges and team selection.

One module per screen or component:

- `Common` holds the JavaScript built-ins the handlers lean on: `trim`,
  `toLowerCase`, `includes`, `filter`, `find` and `join`, plus list toggles.
- `Domain` holds the shared entities.
- `Session` holds the two localStorage keys.

Each HTTP request is an input: an `Option`, a small outcome datatype, or a
lookup function standing for a per-item request. The state a handler writes
is its result.

## Model

| member | source | states |
|---|---|---|
| Session.StoredProfile | src/components/CompanyLayout.tsx:48 | The stored profile is the parsed `user` key, or the empty profile when none is stored |
| Session.SaveSession | src/pages/LoginPage.tsx:22-23 | A successful sign-in stores token and user together, and the session is authenticated iff the token is non-empty |
| Session.Logout | src/components/CompanyLayout.tsx:55-59 | Logout removes both keys, leaves no authenticated session and navigates to /login |
| Auth.ErrorText | src/pages/LoginPage.tsx:27-32 | No response gives "Ошибка сети"; an error response gives the server message when truthy, else the form's fallback text |
| Auth.BeginSubmit | src/pages/LoginPage.tsx:13-16 | A submit starts with the error cleared and loading raised |
| Auth.HandleSubmit | src/pages/LoginPage.tsx:13-36 | Success persists token and user and navigates to "/" with no error; failure leaves storage alone, does not navigate and shows ErrorText; loading ends either way |
| Auth.SubmitKeepsSessionCoupled | src/pages/RegisterPage.tsx:14-36 | Token and user stay both stored or both absent across a submit, and a failed submit never shows an empty error |
| Auth.ShortPasswordBlocked | src/pages/RegisterPage.tsx:76 | A password under six UTF-16 code units fails the form's own validation, so no request is made |
| Auth.RegisterInputAccepted | src/pages/RegisterPage.tsx:46-76 | The registration form submits only with a name, an e-mail address of the HTML `type="email"` shape and a password of at least six code units; so the address holds an '@' and the password at least three characters |
| Auth.LoginInputAccepted | src/pages/LoginPage.tsx:44-63 | The login form submits only with an e-mail address of the `type="email"` shape and a non-empty password, with no length rule |
| Auth.MinLengthCountsCodeUnits | src/pages/RegisterPage.tsx:76 | Five letters are refused while three emoji, six code units, are accepted |
| Auth.EmptyOrMalformedBlocksLogin | src/pages/LoginPage.tsx:44-63 | An empty field, or "not-an-email" as the address, keeps the login form from submitting |
| Routing.ProtectedRoute | src/App.tsx:12-15 | The outlet renders iff the stored token is truthy; otherwise redirect to /login with replace, including for an empty-string token |
| Routing.Route | src/App.tsx:22-28 | The route table never redirects by itself; / matches exactly the non-empty all-slash locations; a company route's id is the slash-free segment right after /companies/ |
| Routing.Resolve | src/App.tsx:20-35 | Locations are matched ignoring the case of the static parts and any trailing slashes; /login and /registr render without the guard; / and /companies/:id pass through it; any other location matches nothing |
| Routing.TrailingSlashesIgnored | src/App.tsx:20-35 | Appending slashes to a non-empty location never changes the route it names |
| Routing.LooseSpellingsMatch | src/App.tsx:22-23 | For example "/LOGIN", "/login/" and "/Registr//" reach the public routes |
| Routing.LooseCompanyPathsMatch | src/App.tsx:27-28 | For example "//" reaches the company list and "/Companies/C1/" the company route, with the id "C1" as written |
| Routing.CompanyPathIsProtected | src/App.tsx:28 | /companies/{id}, with the prefix in any letter case and a slash-free id, is the guarded company route carrying that id |
| Routing.NothingGuardedAfterLogout | src/App.tsx:12-35 | After logout every location renders an auth screen, the /login redirect, or nothing |
| Routing.SectionPathsAreUnrouted | src/App.tsx:28-32 | The company route has only an index child, so /companies/{id}/{section} matches no route even when signed in, whatever follows the section's first character |
| Layout.NoStoredUserIsNoCreator | src/components/CompanyLayout.tsx:48-50 | With no stored user id, nobody is the creator |
| Layout.IsCreator | src/components/CompanyLayout.tsx:50 | `isCreator` holds only when a stored id exists and equals the company's `createdBy`; no stored id never matches |
| Layout.FindUserDetail | src/components/CompanyLayout.tsx:49 | The top-bar user is the first company user with the stored id; without a match it is the stored name and e-mail (or "") with no roles |
| Layout.FirstListedUserShown | src/components/CompanyLayout.tsx:49 | When the stored id is listed more than once, the top bar shows the first entry and never a later one |
| Layout.OnNavigate | src/components/CompanyLayout.tsx:52-54 | Paths starting with '/' are used as is; others resolve under /companies/{id}/; the target is always absolute |
| Layout.FetchCompany | src/components/CompanyLayout.tsx:35-42 | Without an id nothing changes; success stores the company; failure stores the server message or "Не удалось загрузить данные"; loading ends |
| Layout.Render | src/components/CompanyLayout.tsx:44-50 | Loading, then error, then missing company take precedence; the shell is shown iff none applies, with the creator flag and user detail |
| Layout.NoIdSpinsForever | src/components/CompanyLayout.tsx:36 | Without a company id the layout stays on the spinner whatever the server would answer |
| Layout.FailureShowsError | src/components/CompanyLayout.tsx:40-45 | A failed company load always shows a non-empty error |
| Layout.Menu | src/components/CompanySidebar.tsx:14-92 | A creator gets five section entries and others four; every entry path is relative |
| Layout.Utilities | src/components/CompanySidebar.tsx:97-119 | "Сменить компанию" to "/" comes first and logout last; the settings button is present iff the user is the creator |
| Layout.MenusCompared | src/components/CompanySidebar.tsx:14-92 | Both menus offer okr, participants, teams and statistics; roles is offered iff the user is the creator |
| Layout.SidebarSectionsAreUnrouted | src/components/CompanySidebar.tsx:18-50 | Every section entry resolves to a company path that the route table does not match; "Сменить компанию" reaches the company list |
| Companies.Summaries | src/pages/CompaniesPage.tsx:45-51 | An array response is used as is; otherwise the created companies, then the member companies, each skipped when not an array |
| Companies.CardRoles | src/pages/CompaniesPage.tsx:56-60 | Card roles are userRoles when it is an array, else [userRole] when that is non-empty, else none |
| Companies.MakeCard | src/pages/CompaniesPage.tsx:61-67 | A card copies id and name, takes CardRoles, is a creator card only when isCreator is true, and carries the member count |
| Companies.BuildCards | src/pages/CompaniesPage.tsx:52-68 | Cards exist iff every detail request succeeds; then there is one card per summary, in order, counting its own company's users |
| Companies.FetchCompanies | src/pages/CompaniesPage.tsx:39-76 | Any failed request shows "Не удалось загрузить компании" and keeps the old cards; otherwise the cards are BuildCards' result; loading ends |
| Companies.OneFailureHidesAll | src/pages/CompaniesPage.tsx:52-72 | A witness: two companies of which the second is unreachable leave the list without any card |
| Companies.NonEmpty | src/components/CompaniesList.tsx:49 | `filter(Boolean)` keeps every non-empty string as often as it occurs, in order, and drops the empty ones |
| Companies.NonEmptyKeepsFilled | src/components/CompaniesList.tsx:49 | A list without empty strings passes the filter unchanged |
| Companies.DisplayRoles | src/components/CompaniesList.tsx:46-49 | A creator's roles line starts with "Создатель"; a non-creator with only empty roles gets an empty line |
| Companies.DisplayRolesExact | src/components/CompaniesList.tsx:46-49 | Without empty role names the line is "Создатель" (for creators) followed by the roles, joined by ", " |
| Companies.EmptyRolesDropped | src/components/CompaniesList.tsx:46-49 | For every card, the line equals that of the card with its empty roles removed: "Создатель" (for creators) and then the non-empty roles in order, joined by ", " |
| Companies.RenderList | src/components/CompaniesList.tsx:23-71 | No companies give the empty state; otherwise one tile per company, in order, followed by the create tile |
| CreateCompany.BeginCreate | src/components/CreateCompanyModal.tsx:16-19 | An empty name is refused by the required field; otherwise the spinner starts and the error clears |
| CreateCompany.SubmitDisabled | src/components/CreateCompanyModal.tsx:67 | The button is disabled only while creating; an empty name leaves it enabled and the `required` check refuses the submit instead |
| CreateCompany.FinishCreate | src/components/CreateCompanyModal.tsx:20-30 | Success clears the name and calls onSuccess then onClose; failure keeps the name and shows the server message or "Ошибка создания компании"; the spinner stops |
| CreateCompany.FailureExplains | src/components/CreateCompanyModal.tsx:25-27 | A failure always shows a non-empty error and does not close the dialog |
| CreateCompany.SuccessRefreshesThenCloses | src/components/CreateCompanyModal.tsx:16-24 | Submitting and succeeding refreshes before it closes, and returns the dialog to its initial state |
| CreateCompany.Render | src/components/CreateCompanyModal.tsx:33 | A closed dialog renders nothing |
| CrudSections.Fetch | src/components/CompanyRolesSection.tsx:24-40 | Without a company id nothing changes; a failure empties the list; otherwise the answer is shown; loading ends |
| CrudSections.CreateDisabled | src/components/CompanyRolesSection.tsx:120 | The create button is disabled while a creation runs or for an empty name; when enabled, the name holds a non-whitespace character |
| CrudSections.MayCreate | src/components/CompanyRolesSection.tsx:47 | The create handler proceeds iff there is a company id and the name holds a non-whitespace character |
| CrudSections.BeginCreate | src/components/CompanyRolesSection.tsx:46-49 | A creation starts iff there is a company id and the name has a visible character |
| CrudSections.BlankNameSendsNothing | src/components/CompanyRolesSection.tsx:47 | A name made only of whitespace never starts a creation |
| CrudSections.EnabledButtonCreates | src/components/CompanyRolesSection.tsx:116-121 | An enabled create button starts a creation, and the button is disabled while it runs |
| CrudSections.FinishCreate | src/components/CompanyRolesSection.tsx:50-65 | Success refetches the list and empties the form; failure keeps list and form; the spinner stops |
| CrudSections.DraftKeptOnFailure | src/components/CompanyTeamsSection.tsx:90-106 | The form empties only after a successful creation |
| CrudSections.BeginDelete | src/components/CompanyRolesSection.tsx:68-71 | A delete starts iff the guard passes and the user confirms, and marks that item in flight |
| CrudSections.FinishDelete | src/components/CompanyRolesSection.tsx:72-83 | Success refetches the list; the in-flight marker clears on every outcome |
| CrudSections.DeleteMarksOneItem | src/components/CompanyTeamsSection.tsx:196 | While a delete runs only its own item's button is disabled; afterwards none is |
| CrudSections.RolesFetched | src/components/CompanyRolesSection.tsx:28-36 | A missing roles field reads as an empty list; a failed request stays a failure |
| CrudSections.BeginRemoveRole | src/components/CompanyRolesSection.tsx:68-71 | A role is deleted only with a company id and a confirmation, and its button is then disabled |
| CrudSections.BeginDeleteTeam | src/components/CompanyTeamsSection.tsx:109-112 | A team is deleted iff the user confirms (no company-id check), and its button is then disabled |
| CrudSections.CreateTeamRequest | src/components/CompanyTeamsSection.tsx:86-94 | A team is posted iff the guard passes, with the form's name, the company id and the description |
| CrudSections.TeamNameSentUntrimmed | src/components/CompanyTeamsSection.tsx:87-94 | The guard trims but the request does not: " A " is sent with its spaces |
| UsersSection.WithoutCurrent | src/components/CompanyUsersSection.tsx:54 | The kept users are exactly, and in order, those whose id is not the stored user's id |
| UsersSection.CurrentUserHidden | src/components/CompanyUsersSection.tsx:45-54 | The signed-in user never appears in the list; with no stored id nobody is hidden |
| UsersSection.FetchUsers | src/components/CompanyUsersSection.tsx:37-68 | Without a company id nothing changes; a failure empties the list; an answer without users keeps it; otherwise the filtered list; loading ends |
| UsersSection.SearchInput | src/components/CompanyUsersSection.tsx:119-132 | A request is made iff the input has at least three UTF-16 code units (JavaScript's `length`); short input or a failure shows no hits; otherwise the answer is shown |
| UsersSection.ShortInputClears | src/components/CompanyUsersSection.tsx:130-131 | Short input clears the hits whatever the server would answer |
| UsersSection.AstralCharactersCountTwice | src/components/CompanyUsersSection.tsx:121 | Two emoji already make four code units and search, while two letters do not |
| UsersSection.BeginAdd | src/components/CompanyUsersSection.tsx:74-77 | Adding starts iff there is a company id, and raises the add spinner |
| UsersSection.FinishAdd | src/components/CompanyUsersSection.tsx:78-86 | Success reloads the list and clears the hits; failure changes nothing else; the spinner stops |
| UsersSection.BeginRemove | src/components/CompanyUsersSection.tsx:89-93 | Removal needs no confirmation, only a company id, and marks the user in flight |
| UsersSection.FinishRemove | src/components/CompanyUsersSection.tsx:94-105 | Success reloads the list; the in-flight marker clears on every outcome |
| UsersSection.ReloadKeepsCurrentHidden | src/components/CompanyUsersSection.tsx:80-96 | After a successful add or remove the signed-in user is still absent from the list |
| Settings.IsSubPage | src/pages/CompanySettingsPage.tsx:67-69 | `&&` binds tighter than `||`: any path with /users/ and /roles is a sub-page, while one with neither /teams/ nor /roles never is; every sub-page mentions /roles or /members |
| Settings.RootIsNotSubPage | src/pages/CompanySettingsPage.tsx:67-69 | The bare settings path is not a sub-page when the id holds no slash |
| Settings.SubPagePathsRecognised | src/pages/CompanySettingsPage.tsx:67-69 | Team members, team roles and user roles paths are all sub-pages |
| Settings.RenderSection | src/pages/CompanySettingsPage.tsx:50-64 | users, teams and roles render their panel for a truthy company id; anything else renders nothing |
| Settings.RenderBody | src/pages/CompanySettingsPage.tsx:101-109 | A sub-page shows the outlet whatever section is active; otherwise the active section's panel, or nothing |
| Settings.SectionClick | src/pages/CompanySettingsPage.tsx:42-48 | A click always activates the section and navigates to the settings root iff on a sub-page |
| Settings.ClickLeavesSubPage | src/pages/CompanySettingsPage.tsx:42-48 | Clicking a section on a team-members page leads to a settings root that is not a sub-page |
| CheckIns.CalculateProgress | src/pages/OKRCheckInsPage.tsx:122-129 | The progress is the share of the start-to-target span covered, in percent |
| CheckIns.ProgressFormula | src/pages/OKRCheckInsPage.tsx:122-129 | Both branches give the same value; start maps to 0 and target to 100 |
| CheckIns.ProgressWithinRange | src/pages/OKRCheckInsPage.tsx:122-129 | In an increasing range, a value between start and target has progress in [0, 100] |
| CheckIns.AcceptedValue | src/pages/OKRCheckInsPage.tsx:131-143 | A value below the persisted one is refused; other metrics keep the value; percentage clamps it into [start, target]; the stored value never drops below the persisted one when that is within target |
| CheckIns.ClampCanUndercutPersistedValue | src/pages/OKRCheckInsPage.tsx:136-143 | A percentage key result whose persisted value exceeds its target accepts an edit and stores less than the persisted value |
| CheckIns.InitForm | src/pages/OKRCheckInsPage.tsx:93-101 | One update per key result at its own index, carrying the persisted value and progress, and an empty comment |
| CheckIns.Open | src/pages/OKRCheckInsPage.tsx:84-107 | Nothing happens while closed, without an id, or on a failure; otherwise the OKR is stored and the form initialised |
| CheckIns.UpdateActualValue | src/pages/OKRCheckInsPage.tsx:131-153 | Only updates[index] may change, to the accepted value and its progress; a refused value or no OKR leaves the editor unchanged |
| CheckIns.EditComment | src/pages/OKRCheckInsPage.tsx:112-120 | Typing a comment stores it, clears the error and leaves the updates alone |
| CheckIns.Submit | src/pages/OKRCheckInsPage.tsx:112-120 | A comment that trims to empty blocks the submission with "Пожалуйста, добавьте комментарий"; otherwise the error clears and the form is passed on unchanged |
| CheckIns.SubmitNeedsVisibleComment | src/pages/OKRCheckInsPage.tsx:114 | A check-in is passed on iff its comment has a non-whitespace character |
| CheckIns.InitTracks | src/pages/OKRCheckInsPage.tsx:93-101 | A fresh form tracks its OKR: one update per key result, at its own index, none below the persisted value |
| CheckIns.EditKeepsTracking | src/pages/OKRCheckInsPage.tsx:131-153 | When no percentage key result's persisted value exceeds its target, an edit keeps the form tracking its OKR: no proposed value falls below the persisted one |
| CheckIns.EditsNeedNotIncrease | src/pages/OKRCheckInsPage.tsx:135-137 | A witness that edits are checked against the persisted value, not the previous edit: 50 then 30 is accepted over a persisted 20 |
| CheckIns.NoCheckInWhenFrozenOrDone | src/pages/OKRCheckInsPage.tsx:513 | A frozen OKR, or one at 100% progress, offers no check-in |
| CheckIns.CanCreateCheckIn | src/pages/OKRCheckInsPage.tsx:513 | The create button needs a loaded OKR short of 100%; without an OKR it is never shown |
| CheckIns.CheckInPayload | src/pages/OKRCheckInsPage.tsx:479-486 | Nothing is sent without a route id; otherwise the submitted form with the route's id |
| OkrStatus.StatusText | src/pages/TeamDetailPage.tsx:15-22 | active, done and draft get their Russian labels; any other status is shown as it came |
| OkrStatus.StatusTone | src/pages/TeamDetailPage.tsx:6-13 | Blue iff active, green iff done, gray for everything else, never red |
| OkrStatus.KnownLabelsDistinct | src/pages/CompanyOKRPage.tsx:56-67 | The three known statuses get distinct labels, none of which is itself a status |
| OkrStatus.DraftLooksLikeUnknown | src/pages/CompanyOKRPage.tsx:43-54 | A draft and an unknown status share the gray badge; only the label differs |
| TeamOkrs.AddKeyResult | src/pages/TeamDetailPage.tsx:428-433 | A blank key result is appended; nothing else in the form changes |
| TeamOkrs.RemoveKeyResult | src/pages/TeamDetailPage.tsx:435-440 | Exactly the key result at the index is dropped, order kept; nothing else changes |
| TeamOkrs.UpdateKeyResult | src/pages/TeamDetailPage.tsx:442-449 | Only the named field of the key result at the index changes |
| TeamOkrs.SelectAssignedKr | src/pages/TeamDetailPage.tsx:451-458 | Selecting sets both the parent OKR and the key-result index |
| TeamOkrs.CancelParent | src/pages/TeamDetailPage.tsx:550-556 | Cancelling clears both link fields and nothing else |
| TeamOkrs.CancelUndoesSelect | src/pages/TeamDetailPage.tsx:451-556 | Selecting then cancelling restores an unlinked form |
| TeamOkrs.KeyResultsNeverEmpty | src/pages/TeamDetailPage.tsx:583 | Remove is offered only while there are several key results, so no action sequence empties the list |
| TeamOkrs.Request | src/pages/TeamDetailPage.tsx:723-731 | The request carries objective, description and key results, and the link only when the parent OKR id is non-empty |
| TeamOkrs.SubmitForm | src/pages/TeamDetailPage.tsx:423-426 | The form reaches `onSubmit` iff the objective and every key-result title are non-empty (`required` at lines 485 and 600), so every request carries them |
| TeamOkrs.InitialFormNotSubmittable | src/pages/TeamDetailPage.tsx:475-485 | The freshly opened modal cannot be submitted, even with an objective typed in, until its key result has a title |
| TeamOkrs.EmptyTitleBlocks | src/pages/TeamDetailPage.tsx:594-600 | An empty key-result title blocks the submit; a title of one space no longer does |
| TeamOkrs.StatusNotSent | src/pages/TeamDetailPage.tsx:723-731 | The status chosen in the form never affects the request |
| TeamOkrs.LinkReachesRequest | src/pages/TeamDetailPage.tsx:723-731 | A selected link reaches the request, and cancelling removes it |
| TeamOkrs.Enrich | src/pages/TeamDetailPage.tsx:652-687 | Only the attached key result may change; an unlinked OKR or a failed lookup is returned unchanged |
| TeamOkrs.EnrichIdempotent | src/pages/TeamDetailPage.tsx:652-687 | Enriching twice gives the same OKR as enriching once |
| TeamOkrs.FetchTeamOkrs | src/pages/TeamDetailPage.tsx:642-691 | Without a team id or on failure the list stays; otherwise the fetched OKRs, each enriched, same length and order |
| TeamOkrs.HandleCreate | src/pages/TeamDetailPage.tsx:718-763 | A created OKR is enriched and appended and the modal closes; without a team id or on failure nothing changes |
| TeamOkrs.StatusChange | src/pages/TeamDetailPage.tsx:765-774 | On success the OKRs with the id take the status and all others are unchanged; on failure the list is unchanged |
| TeamOkrs.StatusChangeLastWins | src/pages/TeamDetailPage.tsx:765-774 | Two successful changes of the same OKR equal the last one alone |
| CompanyOkrs.AddKeyResult | src/pages/CompanyOKRPage.tsx:217-222 | A blank key result with no teams is appended; nothing else changes |
| CompanyOkrs.RemoveKeyResult | src/pages/CompanyOKRPage.tsx:224-229 | Exactly the key result at the index is dropped, order kept |
| CompanyOkrs.FormCanBecomeEmpty | src/pages/CompanyOKRPage.tsx:293-299 | A witness that removal is offered for every key result: the initial form loses its only one |
| CompanyOkrs.KeyResultChange | src/pages/CompanyOKRPage.tsx:231-238 | Only the edited field of the key result at the index changes |
| CompanyOkrs.TeamCheckbox | src/pages/CompanyOKRPage.tsx:329-333 | Checking appends the team id; unchecking removes every occurrence; other ids keep their membership |
| CompanyOkrs.CheckboxRoundTrip | src/pages/CompanyOKRPage.tsx:328-333 | Toggling keeps the team list duplicate-free, and checking then unchecking restores it |
| CompanyOkrs.CreateObjective | src/pages/CompanyOKRPage.tsx:201-215 | Posted iff the objective, the description and every key result's title and description are non-empty (`required` at lines 264, 274, 308 and 318); success hides the form, resets it to one blank key result and refetches; a failure or a refused form changes nothing |
| CompanyOkrs.PostNeedsFilledForm | src/pages/CompanyOKRPage.tsx:256-318 | The reset form cannot be posted again as it is, while a form emptied of key results is posted with only the objective and description filled |
| CompanyOkrs.TeamName | src/pages/CompanyOKRPage.tsx:130 | The name of the first team with the id, or nothing when none has it |
| CompanyOkrs.TeamsLabel | src/pages/CompanyOKRPage.tsx:129-131 | The line is empty for no teams, the team's name for one, and otherwise the first team's name, ", ", and the line of the remaining ids |
| CompanyOkrs.TeamsLabelAppend | src/pages/CompanyOKRPage.tsx:129-131 | Each further team id adds ", " and its name (blank when unknown) at the end of the line |
| CompanyOkrs.UnknownTeamShowsBlank | src/pages/CompanyOKRPage.tsx:129-131 | A witness that an unknown team id leaves an empty slot: one unknown and one known team read ", name" |
| TeamMembers.FormatMembers | src/pages/TeamMembersPage.tsx:56-71 | One member per record, taking the user's id, name and e-mail and the record's id, with no roles; none when members are missing |
| TeamMembers.FetchMembers | src/pages/TeamMembersPage.tsx:40-82 | Without a team id nothing changes; a failure empties the list; otherwise the formatted members |
| TeamMembers.Search | src/pages/TeamMembersPage.tsx:142-162 | A blank query finds nobody; the hits are a subsequence of the company users that excludes the creator and members and matches the lower-cased query; every such user is found |
| TeamMembers.MembersNeverFound | src/pages/TeamMembersPage.tsx:154 | No current member is ever offered again |
| TeamMembers.SpacesFindNobody | src/pages/TeamMembersPage.tsx:143-146 | A query of spaces finds nobody |
| TeamMembers.RecordIdsOf | src/pages/TeamMembersPage.tsx:120-122 | The ids sent are the record ids of the selected members, one per selected member and in list order |
| TeamMembers.RemoveRequest | src/pages/TeamMembersPage.tsx:114-128 | Nothing is sent without a team id or with an empty selection; otherwise the selected members' record ids |
| TeamMembers.IdsToAdd | src/pages/TeamMembersPage.tsx:170-171 | The ids added are those of the search hits whose id was requested, one per hit and in result order; requested ids without a hit are dropped |
| TeamMembers.AddRequest | src/pages/TeamMembersPage.tsx:164-177 | Nothing is sent without a team id or with no ids; otherwise IdsToAdd |
| TeamMembers.AddCanSendNothing | src/pages/TeamMembersPage.tsx:165-177 | A witness that a selected id with no matching hit produces a request with an empty list |
| TeamRoles.Search | src/pages/TeamRolesPage.tsx:90-107 | A blank query finds nothing; the hits are a subsequence of the company roles, exclude required roles and match the query; every such role is found |
| TeamRoles.EmptyDescriptionMatchesByName | src/pages/TeamRolesPage.tsx:102-103 | A role with an empty description matches by its name alone |
| TeamRoles.ResultNames | src/pages/TeamRolesPage.tsx:115 | The set of the hits' names |
| TeamRoles.SelectAll | src/pages/TeamRolesPage.tsx:109-117 | As written: the selection is cleared when its size equals the number of hits, and otherwise becomes the hits' names |
| TeamRoles.SelectAllMistakesForeignSelection | src/pages/TeamRolesPage.tsx:110-112 | Two selected roles that are not hits, against two hits, clear the selection instead of selecting the hits |
| TeamRoles.SelectAllIntended | src/pages/TeamRolesPage.tsx:109-117 | Corrected: clear when every hit is already selected, otherwise select the hits |
| TeamRoles.SelectAllIntendedSelectsResults | src/pages/TeamRolesPage.tsx:109-117 | The corrected version selects all hits when they are not all selected, and a second press clears them |
| TeamRoles.RemoveRequest | src/pages/TeamRolesPage.tsx:69-76 | Nothing is sent without a team id or with an empty selection; otherwise every selected role |
| TeamRoles.AddRequest | src/pages/TeamRolesPage.tsx:119-126 | Nothing is sent without a team id or with no names; otherwise exactly the names given |
| BulkSearch.AfterRemove | src/pages/TeamMembersPage.tsx:129-130 | A successful bulk remove clears the selection and leaves the search alone; a failure changes nothing (the roles page does the same at src/pages/TeamRolesPage.tsx:77-78) |
| BulkSearch.AfterAdd | src/pages/TeamMembersPage.tsx:178-182 | A successful bulk add closes and empties the search panel and clears the selection; a failure changes nothing (likewise src/pages/TeamRolesPage.tsx:127-131) |
| BulkSearch.ClosedPanelIsStable | src/pages/TeamRolesPage.tsx:127-131 | After a successful add, no later add or remove reset changes the panel |
| UserRoles.AssignedRoles | src/pages/UserRolesPage.tsx:107 | The company roles the user holds, in company order |
| UserRoles.AvailableRoles | src/pages/UserRolesPage.tsx:108 | The company roles the user does not hold, in company order |
| UserRoles.RolesPartition | src/pages/UserRolesPage.tsx:107-108 | Assigned and available together hold every company role exactly as often as the company list |
| UserRoles.RolesDisjoint | src/pages/UserRolesPage.tsx:107-108 | No role is both assigned and available |
| UserRoles.UnknownRolesAreHidden | src/pages/UserRolesPage.tsx:107-108 | A role the user holds that the company lacks appears in neither list; with no user everything is available |
| UserRoles.RoleToggle | src/pages/UserRolesPage.tsx:57-71 | A present name is removed, an absent one is appended; other names keep their membership |
| UserRoles.RoleToggleTwice | src/pages/UserRolesPage.tsx:57-71 | Toggling keeps the selection duplicate-free, and toggling twice restores it |
| UserRoles.FetchUserAndRoles | src/pages/UserRolesPage.tsx:30-51 | Without both ids nothing changes; an unlisted user or a failure only ends loading; success sets the first listed user with the id and the company roles, and clears both selections |
| UserRoles.FirstListedUserLoaded | src/pages/UserRolesPage.tsx:36-41 | A user id listed twice loads the first entry, never a later one |
| UserRoles.RemoveRequest | src/pages/UserRolesPage.tsx:73-80 | Nothing is sent without both ids, a loaded user and a non-empty assigned selection; otherwise that selection |
| UserRoles.AddRequest | src/pages/UserRolesPage.tsx:90-97 | Nothing is sent without both ids, a loaded user and a non-empty available selection; otherwise that selection |
| RolesPage.Holders | src/pages/RolesPage.tsx:78-80 | The users listed under a role are exactly those holding it, in company order |
| RolesPage.Group | src/pages/RolesPage.tsx:75-81 | One entry per company role, in order, with name and description copied and the role's holders |
| RolesPage.ListedIffHolds | src/pages/RolesPage.tsx:78-80 | A company user is listed under a role iff they hold it |
| RolesPage.FetchRoles | src/pages/RolesPage.tsx:60-90 | Without a company id or on failure the list is empty; otherwise the grouping; loading ends |
| RolesPage.EmptyStateIffNoRoles | src/pages/RolesPage.tsx:106-107 | The "Роли не найдены" state shows iff the company has no roles |
| Statistics.PieData | src/pages/TeamStatisticsPage.tsx:154-159 | No statistics give no slices; otherwise completed, in progress, at risk and frozen, in that order, with the first three summing to the total |
| Statistics.PieSumsToTotalPlusFrozen | src/pages/CompanyStatisticsPage.tsx:103-108 | The whole pie adds up to the total plus the frozen count |
| Statistics.InProgressSign | src/pages/TeamStatisticsPage.tsx:156 | With non-negative counters, every slice is non-negative iff completed plus at-risk do not exceed the total |
| Statistics.TeamStatusText | src/pages/TeamStatisticsPage.tsx:130-137 | completed, at_risk and on_track are translated; anything else is shown as it came |
| Statistics.TeamStatusTone | src/pages/TeamStatisticsPage.tsx:121-128 | Green, red and blue exactly for the three known statuses, gray otherwise |
| Statistics.CompanyStatusText | src/pages/CompanyStatisticsPage.tsx:193-195 | Three labels only: completed and at_risk get theirs, anything else reads "В процессе" |
| Statistics.CompanyStatusTone | src/pages/CompanyStatisticsPage.tsx:188-191 | Never gray: green iff completed, red iff at_risk, blue otherwise |
| Statistics.BadgesAgreeOnKnownStatuses | src/pages/CompanyStatisticsPage.tsx:188-196 | The two pages agree on the three known statuses; an unknown one is gray on the team page and blue on the company page |
| Statistics.OpenTeamPage | src/pages/TeamStatisticsPage.tsx:70-75 | The page opens loading, with the team from the address selected (or none) |
| Statistics.FetchTeams | src/pages/TeamStatisticsPage.tsx:78-96 | Without a company id or on failure the team list is empty; otherwise the answer's teams or none; loading ends |
| Statistics.FetchTeamStats | src/pages/TeamStatisticsPage.tsx:101-114 | No request without a selected team; a failure keeps the statistics already shown |
| Statistics.StaleStatsSurviveFailure | src/pages/TeamStatisticsPage.tsx:104-109 | A failed request after a successful one leaves the older numbers on screen |
| Statistics.HandleTeamSelect | src/pages/TeamStatisticsPage.tsx:116-119 | Selecting a team stores it and navigates to /companies/{c}/statistics/team/{t}; statistics are fetched iff the id is non-empty |
| Statistics.FetchCompanyStats | src/pages/CompanyStatisticsPage.tsx:71-87 | Without a company id nothing changes; otherwise loading ends and a failure keeps the previous statistics |
| Statistics.CompanyPageOutcomes | src/pages/CompanyStatisticsPage.tsx:73-108 | Without a company id the page spins for good; a failed first load shows no statistics and an empty pie |
| Common.BlankIffAllSpace | src/pages/OKRCheckInsPage.tsx:114 | `!s.trim()` holds iff every character is whitespace |
| Common.Toggle | src/pages/TeamMembersPage.tsx:101-112 | A selection toggle flips the key's membership and keeps every other key (the role toggle at src/pages/TeamRolesPage.tsx:59-67 is the same) |
| Common.ToggleTwice | src/pages/TeamRolesPage.tsx:59-67 | Toggling the same key twice restores the selection |
| Common.FilterPartition | src/pages/UserRolesPage.tsx:107-108 | Filtering by a predicate and by its negation splits a list by multiset |
| Common.ListToggleTwice | src/pages/UserRolesPage.tsx:57-62 | Toggling a name twice restores membership, and a present name moves to the end |
| Common.ListToggleUndoesAppend | src/pages/CompanyOKRPage.tsx:329-333 | Toggling an absent element in and out restores the list exactly |
| Common.WithoutKeepsNoDuplicates | src/pages/UserRolesPage.tsx:60 | Removing every occurrence keeps a duplicate-free list duplicate-free |

## Left out

- HTTP: every request is an input to the function that handles its answer. The API client's base URL, headers and interceptors are not part of this model.
- React effects, re-render timing and async interleaving are not modelled. This covers the search that reads the query from the previous render in the team members and team roles pages, and search answers arriving out of order in the users panel. Each filter is a pure function of an explicit query.
- Numbers: check-in values are `real`, so floating-point rounding, `NaN` and `parseInt`/`parseFloat` parsing are not modelled.
- CheckIns.CalculateProgress: requires target ≠ start. For that input JavaScript yields Infinity or NaN, which `real` cannot represent.
- Common.LowerStr: lower-cases only ASCII, the Latin-1 capitals U+00C0–U+00DE (except U+00D7) and the Cyrillic capitals U+0400–U+042F. Full Unicode case mapping is not modelled.
- Auth.RegisterInputAccepted: the e-mail is checked as the value the field holds. The browser's own clean-up of an e-mail field's value (removing line breaks and surrounding whitespace) is not modelled.
- Routing.Resolve: React Router percent-decodes the location before matching it; the model matches the location as given.
- TeamOkrs.Enrich: an OKR whose `parentKRIndex` is `null` (not `undefined`) is still looked up by the source, under the index "null"; the model has one absent index for both and skips the lookup.
- The unused `renderMetricInput` helper of the check-in editor is not modelled; it is never rendered.
- Chart drawing, `toFixed` and date formatting, CSS classes (only their hue, as `Tone`) and icons are not modelled.
- Server-side rules are not modelled: recomputing progress after a check-in, aggregate OKR progress, deriving the statistics, and real authorisation. The statistics counters are taken as the server sends them.
- The team page's "attach to an assigned key result" dialog (`handleAttachToAssignedKR`) and the team fetch (`fetchTeamData`, `fetchAssignedKRs`) are not modelled. They only store what the server returns.
- The settings panels' links to the team-management and user-roles sub-pages are not modelled. They are navigation only; the sub-page predicate is modelled.
- The company detail, company, users, teams and statistics landing pages and the top bar only fetch and render, and are not modelled.
- The statistics pages' per-OKR progress histories and key-result tables are not modelled. They are rendered as the server sends them.
- CrudSections.Fetch: the teams panel stores `data.teams` without a fallback, so a missing field would break its render. The model takes the field as present.
- The company-creation dialog's cancel button and the modals' open/close flags are plain booleans, and are not modelled beyond `CreateCompany.Render`.

## Notes on the code

- No route guards the settings page for creators. Only the sidebar hides its entry, and the route table has no settings route at all.
- Each check-in edit is compared with the persisted value only, so a later edit may go below an earlier one (`CheckIns.EditsNeedNotIncrease`).
- For a percentage key result whose persisted value exceeds its target, the clamp stores less than the persisted value (`CheckIns.ClampCanUndercutPersistedValue`).
- The sidebar's section entries resolve to paths that no route matches (`Layout.SidebarSectionsAreUnrouted`).
- Logout is implemented twice, in the company list and in the company layout, with the same effect (`Session.Logout`).

## Findings

| source | as written | input that shows it | evidently intended | confidence | as-written member | corrected member |
|---|---|---|---|---|---|---|
| src/pages/TeamRolesPage.tsx:109-117 | "Select all" clears the selection whenever its size equals the number of search hits | hits `a`, `b`; selection `{x, y}` (roles picked for removal from the required list) | clear only when every hit is already selected, otherwise select all hits | not executed | TeamRoles.SelectAllMistakesForeignSelection | TeamRoles.SelectAllIntendedSelectsResults |
