/** The route table of the application and its token guard. Two public
    routes (`/login`, `/registr`) sit outside the guard; the company list `/`
    and the company layout `/companies/:companyId` (with only its index route)
    sit inside it. */
module Routing {
  import opened Common
  import opened Session

  /** The guard's verdict: render the nested route, or `<Navigate replace>`. */
  datatype Guard = Allow | RedirectTo(path: string, replace: bool)

  /** `ProtectedRoute`: a truthy stored token lets the nested route render. */
  function ProtectedRoute(s: Storage): (g: Guard)
    ensures g.Allow? <==> IsAuthenticated(s)
    ensures g.RedirectTo? ==> g.path == LoginPath && g.replace
    ensures s.token == Some("") ==> g.RedirectTo?
  {
    if Truthy(s.token) then Allow else RedirectTo(LoginPath, true)
  }

  /** What the router renders for a location. */
  datatype Screen =
    | LoginScreen
    | RegisterScreen
    | CompaniesScreen
    | CompanyOverview(companyId: string)
    | Redirected(path: string, replace: bool)
    | NoMatch

  const CompaniesPrefix: string := "/companies/"

  /** A dynamic segment `:companyId`: non-empty and free of '/'. */
  predicate IsSegment(s: string) {
    s != "" && '/' !in s
  }

  /** The location without its trailing '/' characters: a route pattern
      accepts any number of them after its last segment. */
  function TrimTrailingSlashes(path: string): (r: string)
    ensures |r| <= |path| && r == path[..|r|]
    ensures forall i :: |r| <= i < |path| ==> path[i] == '/'
    ensures r == [] || r[|r| - 1] != '/'
    decreases |path|
  {
    if path == [] || path[|path| - 1] != '/' then path
    else TrimTrailingSlashes(path[..|path| - 1])
  }

  /** `s` spells the lower-case `pattern` up to the case of its letters
      (routes are matched case-insensitively). */
  predicate SpellsIgnoringCase(s: string, pattern: string) {
    LowerStr(s) == pattern
  }

  /** The route a location names, before the guard is consulted: the static
      patterns are compared ignoring case, the `:companyId` segment keeps the
      case it was written in, and trailing slashes are dropped first. */
  function Route(path: string): (scr: Screen)
    ensures !scr.Redirected?
    ensures scr.CompaniesScreen? <==> path != "" && forall i :: 0 <= i < |path| ==> path[i] == '/'
    ensures scr.CompanyOverview? ==>
      && IsSegment(scr.companyId)
      && |CompaniesPrefix| + |scr.companyId| <= |path|
      && path[|CompaniesPrefix|..|CompaniesPrefix| + |scr.companyId|] == scr.companyId
  {
    var t := TrimTrailingSlashes(path);
    if SpellsIgnoringCase(t, "/login") then LoginScreen
    else if SpellsIgnoringCase(t, "/registr") then RegisterScreen
    else if path != "" && t == "" then CompaniesScreen
    else if |CompaniesPrefix| <= |t| && SpellsIgnoringCase(t[..|CompaniesPrefix|], CompaniesPrefix)
      && IsSegment(t[|CompaniesPrefix|..]) then
      CompanyOverview(t[|CompaniesPrefix|..])
    else NoMatch
  }

  predicate IsPublic(path: string) {
    Route(path).LoginScreen? || Route(path).RegisterScreen?
  }

  /** A path that one of the guarded routes matches. */
  predicate IsProtected(path: string) {
    Route(path).CompaniesScreen? || Route(path).CompanyOverview?
  }

  /** The router: public routes render directly, guarded ones pass the guard. */
  function Resolve(path: string, s: Storage): (scr: Screen)
    ensures IsPublic(path) ==> scr == Route(path)
    ensures IsProtected(path) && IsAuthenticated(s) ==> scr == Route(path)
    ensures IsProtected(path) && !IsAuthenticated(s) ==> scr == Redirected(LoginPath, true)
    ensures !IsPublic(path) && !IsProtected(path) ==> scr == NoMatch
  {
    var r := Route(path);
    if r.LoginScreen? || r.RegisterScreen? then r
    else if r.NoMatch? then NoMatch
    else match ProtectedRoute(s)
      case Allow => r
      case RedirectTo(p, replace) => Redirected(p, replace)
  }

  /** A location without trailing slashes is matched as written. */
  lemma NoTrailingSlashKept(path: string)
    requires path == [] || path[|path| - 1] != '/'
    ensures TrimTrailingSlashes(path) == path
  {
  }

  /** Appending slashes to a location never changes the route it names. */
  lemma TrailingSlashesIgnored(path: string, tail: string)
    requires path != ""
    requires forall i :: 0 <= i < |tail| ==> tail[i] == '/'
    ensures Route(path + tail) == Route(path)
  {
    TrimTrailingIgnoresSlashes(path, tail);
  }

  lemma {:induction false} TrimTrailingIgnoresSlashes(path: string, tail: string)
    requires forall i :: 0 <= i < |tail| ==> tail[i] == '/'
    ensures TrimTrailingSlashes(path + tail) == TrimTrailingSlashes(path)
    decreases |tail|
  {
    if tail != [] {
      var shorter := tail[..|tail| - 1];
      assert (path + tail)[|path + tail| - 1] == tail[|tail| - 1] == '/';
      assert (path + tail)[..|path + tail| - 1] == path + shorter;
      TrimTrailingIgnoresSlashes(path, shorter);
      assert TrimTrailingSlashes(path + tail) == TrimTrailingSlashes(path + shorter);
    } else {
      assert path + tail == path;
    }
  }

  /** The company layout URL for a company id is a guarded route, whatever
      the case of the `/companies/` prefix; the id keeps its own case. */
  lemma CompanyPathIsProtected(prefix: string, companyId: string)
    requires SpellsIgnoringCase(prefix, CompaniesPrefix)
    requires IsSegment(companyId)
    ensures Route(prefix + companyId) == CompanyOverview(companyId)
    ensures IsProtected(prefix + companyId)
  {
    var p := prefix + companyId;
    assert companyId[|companyId| - 1] in companyId;
    NoTrailingSlashKept(p);
    assert |LowerStr(prefix)| == |prefix|;
    assert p[..|CompaniesPrefix|] == prefix;
    assert p[|CompaniesPrefix|..] == companyId;
    assert LowerStr(p)[1] == Lower(p[1]) == Lower(prefix[1]) == 'c';
  }

  /** The public routes match in any letter case and with trailing slashes. */
  lemma LooseSpellingsMatch()
    ensures Route("/LOGIN") == LoginScreen
    ensures Route("/login/") == LoginScreen
    ensures Route("/Registr//") == RegisterScreen
  {
    assert LowerStr("/LOGIN") == "/login";
    assert TrimTrailingSlashes("/login/") == "/login";
    assert TrimTrailingSlashes("/Registr//") == TrimTrailingSlashes("/Registr/") == "/Registr";
    assert LowerStr("/Registr") == "/registr";
  }

  /** Extra slashes still reach the company list, and a company location
      whose prefix is spelled in capitals keeps its id as written. */
  lemma LooseCompanyPathsMatch()
    ensures Route("//") == CompaniesScreen
    ensures Route("/Companies/C1/") == CompanyOverview("C1")
  {
    assert LowerStr("/Companies/") == CompaniesPrefix;
    CompanyPathIsProtected("/Companies/", "C1");
    TrailingSlashesIgnored("/Companies/C1", "/");
    assert "/Companies/" + "C1" + "/" == "/Companies/C1/";
  }

  /** After a logout no guarded screen is reachable: every location renders
      an auth screen, the redirect to /login, or nothing. */
  lemma NothingGuardedAfterLogout(s: Storage, path: string)
    ensures var scr := Resolve(path, Logout(s).storage);
      scr.LoginScreen? || scr.RegisterScreen? || scr == Redirected(LoginPath, true) || scr.NoMatch?
  {
  }

  /** The layout defines only its index route, so the section paths the
      sidebar navigates to (`/companies/c/okr` and the like) match no route. */
  lemma SectionPathsAreUnrouted(companyId: string, section: string)
    requires section != "" && section[0] != '/'
    ensures Resolve(CompaniesPrefix + companyId + "/" + section, Storage(Some("t"), None)) == NoMatch
  {
    var p := CompaniesPrefix + companyId + "/" + section;
    var t := TrimTrailingSlashes(p);
    var k := |CompaniesPrefix| + |companyId| + 1;
    assert p[k] == section[0];
    assert |t| > k;
    assert p[..7] == "/compan";
    assert LowerStr(t)[..7] == LowerStr(p[..7]);
    assert LowerStr(t) != "/login" && LowerStr(t) != "/registr";
    assert t[|CompaniesPrefix|..][|companyId|] == p[k - 1] == '/';
  }
}
