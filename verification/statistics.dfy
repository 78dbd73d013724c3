/** The team and company statistics pages: the four-bucket pie data derived
    from the server's counters, the OKR status badges, team selection and
    what the two pages show while loading or after a failed request. */
module Statistics {
  import opened Common
  import opened OkrStatus

  /** The counters both statistics endpoints return (the server's numbers,
      trusted as they come). */
  datatype Counters = Counters(totalOKRs: int, completedOKRs: int, atRiskOKRs: int, frozenOKRs: int)

  /** One slice of the pie chart. */
  datatype Slice = Slice(name: string, value: int)

  const CompletedName: string := "Завершены"
  const InProgressName: string := "В процессе"
  const AtRiskName: string := "Под угрозой"
  const FrozenName: string := "Заморожены"

  /** `pieChartData`: no slices without statistics, otherwise completed,
      in progress (what is neither completed nor at risk), at risk and frozen,
      in that order. */
  function PieData(stats: Option<Counters>): (r: seq<Slice>)
    ensures stats.None? <==> r == []
    ensures stats.Some? ==> |r| == 4 && r[1].name == InProgressName
    ensures stats.Some? ==> r[0] == Slice(CompletedName, stats.value.completedOKRs)
    ensures stats.Some? ==> r[2] == Slice(AtRiskName, stats.value.atRiskOKRs)
    ensures stats.Some? ==> r[3] == Slice(FrozenName, stats.value.frozenOKRs)
    ensures stats.Some? ==> r[0].value + r[1].value + r[2].value == stats.value.totalOKRs
  {
    match stats
    case None => []
    case Some(c) => [
      Slice(CompletedName, c.completedOKRs),
      Slice(InProgressName, c.totalOKRs - c.completedOKRs - c.atRiskOKRs),
      Slice(AtRiskName, c.atRiskOKRs),
      Slice(FrozenName, c.frozenOKRs)]
  }

  /** Sum of the slice values. */
  function Total(slices: seq<Slice>): int
    decreases |slices|
  {
    if slices == [] then 0 else slices[0].value + Total(slices[1..])
  }

  /** The whole pie adds the frozen OKRs on top of the total: frozen ones
      are counted twice when the server also counts them in another bucket. */
  lemma PieSumsToTotalPlusFrozen(c: Counters)
    ensures Total(PieData(Some(c))) == c.totalOKRs + c.frozenOKRs
  {
    var r := PieData(Some(c));
    assert Total(r[3..]) == c.frozenOKRs by {
      assert r[3..][1..] == [];
    }
    assert r[2..][1..] == r[3..];
    assert Total(r[2..]) == r[2].value + Total(r[3..]);
    assert r[1..][1..] == r[2..];
    assert Total(r[1..]) == r[1].value + Total(r[2..]);
    assert Total(r) == r[0].value + Total(r[1..]);
  }

  /** When the server's counters satisfy completed + atRisk <= total, every
      slice is non-negative; otherwise the in-progress slice goes negative. */
  lemma InProgressSign(c: Counters)
    requires c.completedOKRs >= 0 && c.atRiskOKRs >= 0 && c.frozenOKRs >= 0
    ensures (forall i :: 0 <= i < 4 ==> PieData(Some(c))[i].value >= 0)
      <==> c.completedOKRs + c.atRiskOKRs <= c.totalOKRs
  {
    var r := PieData(Some(c));
    if c.completedOKRs + c.atRiskOKRs > c.totalOKRs {
      assert r[1].value < 0;
    }
  }

  // ---------------------------------------------------------------------------
  // Status badges
  // ---------------------------------------------------------------------------

  const Completed: string := "completed"
  const AtRisk: string := "at_risk"
  const OnTrack: string := "on_track"

  const CompletedText: string := "Завершен"
  const AtRiskText: string := "Под угрозой"
  const OnTrackText: string := "В процессе"

  /** The team page's badge text: the three known statuses are translated,
      anything else is shown as it came. */
  function TeamStatusText(status: string): (r: string)
    ensures status == Completed ==> r == CompletedText
    ensures status == AtRisk ==> r == AtRiskText
    ensures status == OnTrack ==> r == OnTrackText
    ensures status !in {Completed, AtRisk, OnTrack} ==> r == status
  {
    if status == Completed then CompletedText
    else if status == AtRisk then AtRiskText
    else if status == OnTrack then OnTrackText
    else status
  }

  /** The team page's badge colour: green, red and blue for the known
      statuses, gray otherwise. */
  function TeamStatusTone(status: string): (r: Tone)
    ensures r == Green <==> status == Completed
    ensures r == Red <==> status == AtRisk
    ensures r == Blue <==> status == OnTrack
    ensures r == Gray <==> status !in {Completed, AtRisk, OnTrack}
  {
    if status == Completed then Green
    else if status == AtRisk then Red
    else if status == OnTrack then Blue
    else Gray
  }

  /** The company page's badge: a three-way choice in which anything that is
      neither completed nor at risk reads as in progress, in blue. */
  function CompanyStatusText(status: string): (r: string)
    ensures r in {CompletedText, AtRiskText, OnTrackText}
    ensures r == CompletedText <==> status == Completed
    ensures r == AtRiskText <==> status == AtRisk
  {
    if status == Completed then CompletedText
    else if status == AtRisk then AtRiskText
    else OnTrackText
  }

  function CompanyStatusTone(status: string): (r: Tone)
    ensures r != Gray
    ensures r == Green <==> status == Completed
    ensures r == Red <==> status == AtRisk
  {
    if status == Completed then Green
    else if status == AtRisk then Red
    else Blue
  }

  /** The two pages agree on the three statuses the server documents and
      part ways on any other value. */
  lemma BadgesAgreeOnKnownStatuses(status: string)
    ensures status in {Completed, AtRisk, OnTrack} ==>
      TeamStatusText(status) == CompanyStatusText(status) && TeamStatusTone(status) == CompanyStatusTone(status)
    ensures status !in {Completed, AtRisk, OnTrack} ==>
      TeamStatusTone(status) == Gray && CompanyStatusTone(status) == Blue
  {
  }

  // ---------------------------------------------------------------------------
  // Team statistics page
  // ---------------------------------------------------------------------------

  /** A team as the selector lists it. */
  datatype TeamItem = TeamItem(id: string, name: string)

  /** The team page's state: the selector's teams, the selected team id, the
      spinner and the last statistics received. */
  datatype TeamPage = TeamPage(teams: seq<TeamItem>, selected: string, loading: bool, stats: Option<Counters>)

  /** The page opens with the team from the address, if any, selected. */
  function OpenTeamPage(routeTeamId: Option<string>): (r: TeamPage)
    ensures r.loading && r.teams == [] && r.stats.None?
    ensures r.selected == routeTeamId.GetOr("")
  {
    TeamPage([], routeTeamId.GetOr(""), true, None)
  }

  /** `fetchTeams`: without a company id the list is empty at once; otherwise
      the answer's `teams` (or none when absent), an empty list on failure;
      the spinner stops in every case. None is a failed request. */
  function FetchTeams(p: TeamPage, companyId: string, response: Option<Option<seq<TeamItem>>>): (r: TeamPage)
    ensures !r.loading && r.selected == p.selected && r.stats == p.stats
    ensures companyId == "" || response.None? ==> r.teams == []
    ensures companyId != "" && response.Some? ==> r.teams == response.value.GetOr([])
  {
    if companyId == "" then p.(teams := [], loading := false)
    else
      match response
      case None => p.(teams := [], loading := false)
      case Some(teams) => p.(teams := teams.GetOr([]), loading := false)
  }

  /** Whether the statistics request is issued for the selection. */
  predicate FetchesStats(p: TeamPage) {
    p.selected != ""
  }

  /** `fetchTeamStats`: skipped with no team selected; a failure keeps the
      statistics already shown. */
  function FetchTeamStats(p: TeamPage, response: Option<Counters>): (r: TeamPage)
    ensures !FetchesStats(p) ==> r == p
    ensures FetchesStats(p) && response.Some? ==> r == p.(stats := response)
    ensures response.None? ==> r == p
  {
    if !FetchesStats(p) then p
    else if response.Some? then p.(stats := response)
    else p
  }

  /** A failed statistics request after a successful one leaves the older
      numbers on screen. */
  lemma StaleStatsSurviveFailure(p: TeamPage, c: Counters)
    requires FetchesStats(p)
    ensures FetchTeamStats(FetchTeamStats(p, Some(c)), None).stats == Some(c)
  {
  }

  /** The address `handleTeamSelect` navigates to. */
  function TeamStatsPath(companyId: string, teamId: string): (r: string)
    ensures r == "/companies/" + companyId + "/statistics/team/" + teamId
    ensures StartsWith(r, "/companies/")
  {
    var r := "/companies/" + companyId + "/statistics/team/" + teamId;
    assert r[..|"/companies/"|] == "/companies/";
    r
  }

  /** Selecting a team: the selection changes and the page navigates to the
      team's statistics address. */
  datatype Selected = Selected(page: TeamPage, navigateTo: string)

  function HandleTeamSelect(p: TeamPage, companyId: string, teamId: string): (r: Selected)
    ensures r.page == p.(selected := teamId)
    ensures r.navigateTo == TeamStatsPath(companyId, teamId)
    ensures FetchesStats(r.page) <==> teamId != ""
  {
    Selected(p.(selected := teamId), TeamStatsPath(companyId, teamId))
  }

  // ---------------------------------------------------------------------------
  // Company statistics page
  // ---------------------------------------------------------------------------

  /** The company page's state: the spinner and the statistics. */
  datatype CompanyPage = CompanyPage(loading: bool, stats: Option<Counters>)

  const InitialCompanyPage: CompanyPage := CompanyPage(true, None)

  /** `fetchCompanyStats`: without a company id it returns before the
      request, so the spinner never stops; otherwise the spinner stops and a
      failure keeps what was there. */
  function FetchCompanyStats(p: CompanyPage, companyId: string, response: Option<Counters>): (r: CompanyPage)
    ensures companyId == "" ==> r == p
    ensures companyId != "" ==> !r.loading
    ensures companyId != "" && response.Some? ==> r.stats == response
    ensures response.None? ==> r.stats == p.stats
  {
    if companyId == "" then p
    else CompanyPage(false, if response.Some? then response else p.stats)
  }

  /** Without a company id the page is a spinner for good; a failed first
      request shows the page with no statistics and so an empty pie. */
  lemma CompanyPageOutcomes(companyId: string)
    ensures FetchCompanyStats(InitialCompanyPage, "", None).loading
    ensures companyId != "" ==>
      var q := FetchCompanyStats(InitialCompanyPage, companyId, None);
      !q.loading && PieData(q.stats) == []
  {
  }
}
