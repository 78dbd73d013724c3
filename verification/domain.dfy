/** The server entities the company screens read. Every one of them is a
    request-scoped copy of what the REST API returned; only the fields the
    modelled handlers look at are kept. */
module Domain {

  /** A company role: its name is its identity within the company. */
  datatype Role = Role(name: string, description: string)

  /** A member of a company as listed in `company.users`. */
  datatype CompanyUser = CompanyUser(id: string, name: string, email: string, roles: seq<string>)

  /** `users[i]` is the user `users.find(u => u.id === id)` returns: the
      first one listed with that id. */
  predicate FirstWithId(users: seq<CompanyUser>, id: string, i: int) {
    0 <= i < |users| && users[i].id == id && forall j :: 0 <= j < i ==> users[j].id != id
  }

  /** Only one position is the first with a given id. */
  lemma FirstWithIdUnique(users: seq<CompanyUser>, id: string, i: int, k: int)
    requires FirstWithId(users, id, i) && FirstWithId(users, id, k)
    ensures i == k
  {
  }

  /** The company record returned by `GET /companies/:id`. */
  datatype Company = Company(
    id: string,
    name: string,
    createdBy: string,
    roles: seq<Role>,
    users: seq<CompanyUser>)

  /** A team as returned by `GET /teams/:id`. */
  datatype Team = Team(
    id: string,
    name: string,
    companyId: string,
    createdBy: string,
    requiredRoles: seq<string>)
}
