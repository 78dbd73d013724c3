/** The browser's persisted session: two localStorage keys, `token` and
    `user` (a JSON profile). Login and registration write both, every logout
    handler removes both. */
module Session {
  import opened Common

  /** The stored user profile; fields the server omitted are None. */
  datatype Profile = Profile(id: Option<string>, name: Option<string>, email: Option<string>)

  /** `JSON.parse('{}')`: what the screens read when no user is stored. */
  const EmptyProfile: Profile := Profile(None, None, None)

  /** The two localStorage keys the application uses. */
  datatype Storage = Storage(token: Option<string>, user: Option<Profile>)

  const LoginPath: string := "/login"

  /** Token and user are either both stored or both absent. */
  predicate Coupled(s: Storage) {
    s.token.Some? <==> s.user.Some?
  }

  /** `localStorage.getItem('token')` is truthy. */
  predicate IsAuthenticated(s: Storage) {
    Truthy(s.token)
  }

  /** `JSON.parse(localStorage.getItem('user') || '{}')`. */
  function StoredProfile(s: Storage): (p: Profile)
    ensures s.user.None? ==> p == EmptyProfile
    ensures s.user.Some? ==> p == s.user.value
  {
    s.user.GetOr(EmptyProfile)
  }

  /** Writes the token and the user returned by the auth endpoint. */
  function SaveSession(token: string, user: Profile): (s: Storage)
    ensures s.token == Some(token) && s.user == Some(user)
    ensures Coupled(s)
    ensures IsAuthenticated(s) <==> token != ""
  {
    Storage(Some(token), Some(user))
  }

  /** What a logout handler leaves behind: storage and the navigation target. */
  datatype LogoutResult = LogoutResult(storage: Storage, navigateTo: string)

  /** Removes both keys, then navigates to the login screen. */
  function Logout(s: Storage): (r: LogoutResult)
    ensures r.storage.token.None? && r.storage.user.None?
    ensures !IsAuthenticated(r.storage) && Coupled(r.storage)
    ensures StoredProfile(r.storage) == EmptyProfile
    ensures r.navigateTo == LoginPath
  {
    LogoutResult(Storage(None, None), LoginPath)
  }
}
