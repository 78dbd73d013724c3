/** The company roles overview: every company role with the company users
    holding it. */
module RolesPage {
  import opened Common
  import opened Domain

  /** A role card: the role and the users listed under it. */
  datatype RoleWithUsers = RoleWithUsers(name: string, description: string, users: seq<CompanyUser>)

  /** The users of the company holding a role, in company order. */
  function Holders(users: seq<CompanyUser>, roleName: string): (r: seq<CompanyUser>)
    ensures IsSubseq(r, users)
    ensures forall u :: u in r <==> u in users && roleName in u.roles
  {
    Filter((u: CompanyUser) => roleName in u.roles, users)
  }

  /** `rolesWithUsers`: one card per company role, in the same order. */
  function Group(c: Company): (r: seq<RoleWithUsers>)
    ensures |r| == |c.roles|
    ensures forall i :: 0 <= i < |r| ==>
      && r[i].name == c.roles[i].name
      && r[i].description == c.roles[i].description
      && IsSubseq(r[i].users, c.users)
      && forall u :: u in r[i].users <==> u in c.users && c.roles[i].name in u.roles
  {
    seq(|c.roles|, i requires 0 <= i < |c.roles| =>
      RoleWithUsers(c.roles[i].name, c.roles[i].description, Holders(c.users, c.roles[i].name)))
  }

  /** A user appears under exactly the cards of the roles it holds. */
  lemma ListedIffHolds(c: Company, u: CompanyUser, i: int)
    requires u in c.users && 0 <= i < |c.roles|
    ensures u in Group(c)[i].users <==> c.roles[i].name in u.roles
  {
  }

  /** The page's state. */
  datatype View = View(roles: seq<RoleWithUsers>, loading: bool)

  /** `fetchRoles`: no company id or a failed request gives an empty list;
      loading always ends. */
  function FetchRoles(companyId: string, fetched: Option<Company>): (r: View)
    ensures !r.loading
    ensures companyId == "" || fetched.None? ==> r.roles == []
    ensures companyId != "" && fetched.Some? ==> r.roles == Group(fetched.value)
  {
    if companyId == "" then View([], false)
    else match fetched
      case None => View([], false)
      case Some(c) => View(Group(c), false)
  }

  /** "Роли не найдены" is shown exactly when the list is empty; with a
      company loaded that means the company defines no roles. */
  predicate ShowsEmptyState(v: View) {
    |v.roles| == 0
  }

  lemma EmptyStateIffNoRoles(companyId: string, c: Company)
    requires companyId != ""
    ensures ShowsEmptyState(FetchRoles(companyId, Some(c))) <==> c.roles == []
  {
  }
}
