/** The page that edits one company user's roles: the company roles split
    into the user's and the rest, a list selection on each side, and the
    bulk assign/remove requests. */
module UserRoles {
  import opened Common
  import opened Domain

  /** `user?.roles.includes(name)`: with no user loaded nobody has a role. */
  predicate HasRole(user: Option<CompanyUser>, name: string) {
    user.Some? && name in user.value.roles
  }

  /** `assignedRoles`: the company roles the user holds, in company order. */
  function AssignedRoles(roles: seq<Role>, user: Option<CompanyUser>): (r: seq<Role>)
    ensures IsSubseq(r, roles)
    ensures forall x :: x in r <==> x in roles && HasRole(user, x.name)
  {
    Filter((x: Role) => HasRole(user, x.name), roles)
  }

  /** `availableRoles`: the remaining company roles, in company order. */
  function AvailableRoles(roles: seq<Role>, user: Option<CompanyUser>): (r: seq<Role>)
    ensures IsSubseq(r, roles)
    ensures forall x :: x in r <==> x in roles && !HasRole(user, x.name)
  {
    Filter((x: Role) => !HasRole(user, x.name), roles)
  }

  /** Together the two lists hold every company role exactly as often as the
      company lists it. */
  lemma {:induction false} RolesPartition(roles: seq<Role>, user: Option<CompanyUser>)
    ensures multiset(AssignedRoles(roles, user)) + multiset(AvailableRoles(roles, user)) == multiset(roles)
    decreases |roles|
  {
    if roles != [] {
      RolesPartition(roles[1..], user);
      assert roles == [roles[0]] + roles[1..];
      if HasRole(user, roles[0].name) {
        assert AssignedRoles(roles, user) == [roles[0]] + AssignedRoles(roles[1..], user);
        assert AvailableRoles(roles, user) == AvailableRoles(roles[1..], user);
      } else {
        assert AssignedRoles(roles, user) == AssignedRoles(roles[1..], user);
        assert AvailableRoles(roles, user) == [roles[0]] + AvailableRoles(roles[1..], user);
      }
    }
  }

  /** No role is both assigned and available. */
  lemma RolesDisjoint(roles: seq<Role>, user: Option<CompanyUser>, x: Role)
    ensures !(x in AssignedRoles(roles, user) && x in AvailableRoles(roles, user))
  {
  }

  /** A role name the user holds but the company does not define shows up in
      neither list; without a user every role is available. */
  lemma UnknownRolesAreHidden(roles: seq<Role>, user: Option<CompanyUser>, name: string)
    requires forall x :: x in roles ==> x.name != name
    ensures forall x :: x in AssignedRoles(roles, user) + AvailableRoles(roles, user) ==> x.name != name
    ensures user.None? ==> AssignedRoles(roles, user) == [] && forall x :: x in roles ==> x in AvailableRoles(roles, user)
  {
  }

  /** `handleAssignedRoleToggle` and `handleAvailableRoleToggle`. */
  function RoleToggle(prev: seq<string>, name: string): (r: seq<string>)
    ensures name in r <==> name !in prev
    ensures forall y :: y != name ==> (y in r <==> y in prev)
    ensures name !in prev ==> r == prev + [name]
  {
    ListToggle(prev, name)
  }

  /** The toggle keeps a selection free of duplicates; toggling twice restores
      which names are selected, and exactly the list when the name was absent. */
  lemma RoleToggleTwice(prev: seq<string>, name: string)
    requires NoDuplicates(prev)
    ensures NoDuplicates(RoleToggle(prev, name))
    ensures forall y :: y in RoleToggle(RoleToggle(prev, name), name) <==> y in prev
    ensures name !in prev ==> RoleToggle(RoleToggle(prev, name), name) == prev
  {
    ListToggleKeepsNoDuplicates(prev, name);
    ListToggleTwice(prev, name);
    if name !in prev {
      ListToggleUndoesAppend(prev, name);
    }
  }

  /** The state the page keeps. */
  datatype View = View(
    user: Option<CompanyUser>,
    companyRoles: seq<Role>,
    selectedAssigned: seq<string>,
    selectedAvailable: seq<string>,
    loading: bool)

  /** The company lists a user with this id. */
  predicate Lists(c: Company, userId: string) {
    exists i :: 0 <= i < |c.users| && c.users[i].id == userId
  }

  /** `fetchUserAndRoles`: without both ids nothing happens (the spinner
      stays); a failed request or an unknown user id only ends loading; a
      found user (the first listed with the id) replaces user and roles and clears both selections. */
  function FetchUserAndRoles(v: View, companyId: string, userId: string, fetched: Option<Company>): (r: View)
    ensures companyId == "" || userId == "" ==> r == v
    ensures companyId != "" && userId != "" && fetched.None? ==> r == v.(loading := false)
    ensures companyId != "" && userId != "" && fetched.Some? && !Lists(fetched.value, userId) ==>
      r == v.(loading := false)
    ensures companyId != "" && userId != "" && fetched.Some? && Lists(fetched.value, userId) ==>
      && r.user.Some? && (exists i :: FirstWithId(fetched.value.users, userId, i) && r.user.value == fetched.value.users[i])
      && r.companyRoles == fetched.value.roles
      && r.selectedAssigned == [] && r.selectedAvailable == [] && !r.loading
  {
    if companyId == "" || userId == "" then v
    else match fetched
      case None => v.(loading := false)
      case Some(company) =>
        match Find((u: CompanyUser) => u.id == userId, company.users)
        case None => v.(loading := false)
        case Some(u) => View(Some(u), company.roles, [], [], false)
  }

  /** A user id listed twice loads the first entry with its roles. */
  lemma FirstListedUserLoaded(v: View, companyId: string, userId: string, company: Company, i: int)
    requires companyId != "" && userId != ""
    requires FirstWithId(company.users, userId, i)
    ensures FetchUserAndRoles(v, companyId, userId, Some(company)).user == Some(company.users[i])
  {
    assert Lists(company, userId);
    var r := FetchUserAndRoles(v, companyId, userId, Some(company));
    var k :| FirstWithId(company.users, userId, k) && r.user.value == company.users[k];
    FirstWithIdUnique(company.users, userId, i, k);
  }

  /** `handleRemoveRoles`: needs both ids, a loaded user and a selection. */
  function RemoveRequest(companyId: string, userId: string, v: View): (r: Option<seq<string>>)
    ensures r.None? <==> companyId == "" || userId == "" || v.user.None? || |v.selectedAssigned| == 0
    ensures r.Some? ==> r.value == v.selectedAssigned
  {
    if companyId == "" || userId == "" || v.user.None? || |v.selectedAssigned| == 0 then None
    else Some(v.selectedAssigned)
  }

  /** `handleAddRoles`: needs both ids, a loaded user and a selection. */
  function AddRequest(companyId: string, userId: string, v: View): (r: Option<seq<string>>)
    ensures r.None? <==> companyId == "" || userId == "" || v.user.None? || |v.selectedAvailable| == 0
    ensures r.Some? ==> r.value == v.selectedAvailable
  {
    if companyId == "" || userId == "" || v.user.None? || |v.selectedAvailable| == 0 then None
    else Some(v.selectedAvailable)
  }
}
