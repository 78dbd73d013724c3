/** The company settings page: three section tiles, the section panel
    below them, and the sub-pages (team members, team roles, user roles) that
    replace the panel while their path is open. */
module Settings {
  import opened Common

  /** `isSubPage`: `&&` binds tighter than `||`, so this is
      (teams and (members or roles)) or (users and roles). */
  predicate IsSubPage(path: string)
    ensures IsSubPage(path) ==> Contains(path, "/roles") || Contains(path, "/members")
    ensures IsSubPage(path) ==> Contains(path, "/teams/") || Contains(path, "/users/")
    ensures Contains(path, "/users/") && Contains(path, "/roles") ==> IsSubPage(path)
    ensures !Contains(path, "/teams/") && !Contains(path, "/roles") ==> !IsSubPage(path)
  {
    || (Contains(path, "/teams/") && (Contains(path, "/members") || Contains(path, "/roles")))
    || (Contains(path, "/users/") && Contains(path, "/roles"))
  }

  function SettingsRoot(companyId: string): string {
    "/companies/" + companyId + "/settings"
  }

  /** The sub-page paths the sections navigate to. */
  function TeamMembersPath(companyId: string, teamId: string): string {
    SettingsRoot(companyId) + "/teams/" + teamId + "/members"
  }

  function TeamRolesPath(companyId: string, teamId: string): string {
    SettingsRoot(companyId) + "/teams/" + teamId + "/roles"
  }

  function UserRolesPath(companyId: string, userId: string): string {
    SettingsRoot(companyId) + "/users/" + userId + "/roles"
  }

  /** The only slashes of the settings root of a slash-free company id. */
  lemma RootSlashes(companyId: string, i: int)
    requires '/' !in companyId
    requires 0 <= i < |SettingsRoot(companyId)| && SettingsRoot(companyId)[i] == '/'
    ensures i == 0 || i == 10 || i == 11 + |companyId|
  {
    var p := SettingsRoot(companyId);
    var head := "/companies/";
    var tail := "/settings";
    assert p == head + companyId + tail;
  }

  /** A "/x..." fragment with a second letter other than 'c' and 's' can only
      start at the slash before the company id, whose first letter it
      then names. */
  lemma FragmentInRoot(companyId: string, part: string, i: int)
    requires '/' !in companyId
    requires |part| >= 2 && part[0] == '/' && part[1] != 'c' && part[1] != 's' && part[1] != '/'
    requires OccursAt(SettingsRoot(companyId), part, i)
    ensures i == 10 && companyId != [] && companyId[0] == part[1]
  {
    var p := SettingsRoot(companyId);
    assert p[i] == part[0];
    assert p[i + 1] == part[1];
    RootSlashes(companyId, i);
    assert p == "/companies/" + companyId + "/settings";
  }

  /** The bare settings path is not a sub-page, whatever the company id. */
  lemma RootIsNotSubPage(companyId: string)
    requires '/' !in companyId
    ensures !IsSubPage(SettingsRoot(companyId))
  {
    var p := SettingsRoot(companyId);
    ContainsIffOccurs(p, "/teams/");
    ContainsIffOccurs(p, "/users/");
    ContainsIffOccurs(p, "/members");
    ContainsIffOccurs(p, "/roles");
    if Contains(p, "/teams/") {
      var i :| OccursAt(p, "/teams/", i);
      FragmentInRoot(companyId, "/teams/", i);
    }
    if Contains(p, "/users/") {
      var i :| OccursAt(p, "/users/", i);
      FragmentInRoot(companyId, "/users/", i);
    }
    if Contains(p, "/members") {
      var i :| OccursAt(p, "/members", i);
      FragmentInRoot(companyId, "/members", i);
    }
    if Contains(p, "/roles") {
      var i :| OccursAt(p, "/roles", i);
      FragmentInRoot(companyId, "/roles", i);
    }
  }

  /** `a + part + b` contains `part`. */
  lemma ContainsInfix(a: string, part: string, b: string)
    ensures Contains(a + part + b, part)
  {
    var s := a + part + b;
    assert s[|a|..|a| + |part|] == part;
    ContainsAt(s, part, |a|);
  }

  /** The three sub-page paths the sections open are recognised as sub-pages. */
  lemma SubPagePathsRecognised(companyId: string, id: string)
    ensures IsSubPage(TeamMembersPath(companyId, id))
    ensures IsSubPage(TeamRolesPath(companyId, id))
    ensures IsSubPage(UserRolesPath(companyId, id))
  {
    var root := SettingsRoot(companyId);
    ContainsInfix(root, "/teams/", id + "/members");
    ContainsInfix(root + "/teams/" + id, "/members", "");
    assert root + "/teams/" + id + "/members" + "" == TeamMembersPath(companyId, id);
    assert root + "/teams/" + (id + "/members") == TeamMembersPath(companyId, id);
    ContainsInfix(root, "/teams/", id + "/roles");
    ContainsInfix(root + "/teams/" + id, "/roles", "");
    assert root + "/teams/" + id + "/roles" + "" == TeamRolesPath(companyId, id);
    assert root + "/teams/" + (id + "/roles") == TeamRolesPath(companyId, id);
    ContainsInfix(root, "/users/", id + "/roles");
    ContainsInfix(root + "/users/" + id, "/roles", "");
    assert root + "/users/" + id + "/roles" + "" == UserRolesPath(companyId, id);
    assert root + "/users/" + (id + "/roles") == UserRolesPath(companyId, id);
  }

  /** The panel a section tile opens, for a company. */
  datatype Section = UsersSection(companyId: string) | TeamsSection(companyId: string) | RolesSection(companyId: string)

  /** `renderSection`: the three known ids give their panels when there is a
      company id; anything else gives nothing. */
  function RenderSection(sectionId: string, companyId: Option<string>): (r: Option<Section>)
    ensures !Truthy(companyId) ==> r.None?
    ensures sectionId != "users" && sectionId != "teams" && sectionId != "roles" ==> r.None?
    ensures Truthy(companyId) && sectionId == "users" ==> r == Some(UsersSection(companyId.value))
    ensures Truthy(companyId) && sectionId == "teams" ==> r == Some(TeamsSection(companyId.value))
    ensures Truthy(companyId) && sectionId == "roles" ==> r == Some(RolesSection(companyId.value))
  {
    if !Truthy(companyId) then None
    else if sectionId == "users" then Some(UsersSection(companyId.value))
    else if sectionId == "teams" then Some(TeamsSection(companyId.value))
    else if sectionId == "roles" then Some(RolesSection(companyId.value))
    else None
  }

  /** What sits below the tiles. */
  datatype Body = SubPageOutlet | Panel(section: Option<Section>) | Blank

  /** On a sub-page the nested route renders whatever section is active;
      otherwise the active section's panel, if one is active. */
  function RenderBody(path: string, activeSection: Option<string>, companyId: Option<string>): (b: Body)
    ensures IsSubPage(path) <==> b == SubPageOutlet
    ensures !IsSubPage(path) && !Truthy(activeSection) ==> b == Blank
    ensures !IsSubPage(path) && Truthy(activeSection) ==> b == Panel(RenderSection(activeSection.value, companyId))
  {
    if IsSubPage(path) then SubPageOutlet
    else if Truthy(activeSection) then Panel(RenderSection(activeSection.value, companyId))
    else Blank
  }

  /** The effect of a tile click: the new active section and where to go. */
  datatype Click = Click(activeSection: Option<string>, navigateTo: Option<string>)

  /** `handleSectionClick`: the section always becomes active; from a
      sub-page the page also returns to its root. */
  function SectionClick(path: string, companyId: string, sectionId: string): (c: Click)
    ensures c.activeSection == Some(sectionId)
    ensures c.navigateTo.Some? <==> IsSubPage(path)
    ensures c.navigateTo.Some? ==> c.navigateTo.value == SettingsRoot(companyId)
  {
    Click(Some(sectionId), if IsSubPage(path) then Some(SettingsRoot(companyId)) else None)
  }

  /** A click on a sub-page returns to the root, where the chosen panel
      shows. */
  lemma ClickLeavesSubPage(companyId: string, teamId: string, sectionId: string)
    requires '/' !in companyId && companyId != ""
    ensures var c := SectionClick(TeamMembersPath(companyId, teamId), companyId, sectionId);
      && c.navigateTo == Some(SettingsRoot(companyId))
      && (sectionId != "" ==>
            RenderBody(c.navigateTo.value, c.activeSection, Some(companyId)) == Panel(RenderSection(sectionId, Some(companyId))))
  {
    SubPagePathsRecognised(companyId, teamId);
    RootIsNotSubPage(companyId);
  }
}
