/** The company list screen: the `/companies` response normalised into one
    list of summaries, one card per summary (with the member count from each
    company's details), the roles line on a card, and the grid with its
    trailing "create company" card. */
module Companies {
  import opened Common

  /** A company as `/companies` describes it. Fields the server may omit are
      Options; `userRoles` is None when it is not an array. */
  datatype Summary = Summary(
    id: string,
    name: string,
    userRoles: Option<seq<string>>,
    userRole: Option<string>,
    isCreator: Option<bool>)

  /** The two shapes the endpoint may answer with: a bare array, or an object
      whose two lists are None when they are not arrays. */
  datatype CompaniesResponse =
    | PlainList(items: seq<Summary>)
    | Grouped(createdCompanies: Option<seq<Summary>>, memberCompanies: Option<seq<Summary>>)

  /** The summaries of `fetchCompanies`: an array is used as is; otherwise the
      created companies come first, then those the user is a member of. */
  function Summaries(resp: CompaniesResponse): (r: seq<Summary>)
    ensures resp.PlainList? ==> r == resp.items
    ensures resp.Grouped? ==>
      r == resp.createdCompanies.GetOr([]) + resp.memberCompanies.GetOr([])
    ensures resp.Grouped? && resp.createdCompanies.Some? ==> r[..|resp.createdCompanies.value|] == resp.createdCompanies.value
  {
    match resp
    case PlainList(items) => items
    case Grouped(created, member) =>
      var first := if created.Some? then created.value else [];
      var second := if member.Some? then member.value else [];
      first + second
  }

  /** The roles of a card: the role array when there is one, else the single
      role when it is set and non-empty, else none. */
  function CardRoles(c: Summary): (r: seq<string>)
    ensures c.userRoles.Some? ==> r == c.userRoles.value
    ensures c.userRoles.None? && Truthy(c.userRole) ==> r == [c.userRole.value]
    ensures c.userRoles.None? && !Truthy(c.userRole) ==> r == []
  {
    match c.userRoles
    case Some(rs) => rs
    case None => if Truthy(c.userRole) then [c.userRole.value] else []
  }

  datatype Card = Card(id: string, name: string, roles: seq<string>, isCreator: bool, memberCount: nat)

  /** The card of one summary, given its company's user count. */
  function MakeCard(c: Summary, memberCount: nat): (card: Card)
    ensures card.id == c.id && card.name == c.name && card.roles == CardRoles(c)
    ensures card.isCreator <==> c.isCreator == Some(true)
    ensures card.memberCount == memberCount
  {
    Card(c.id, c.name, CardRoles(c), c.isCreator == Some(true), memberCount)
  }

  /** The detail requests are awaited together: one failure fails the batch,
      otherwise there is one card per summary, in the same order, counting the
      users of the company with the same id. `userCount` stands for
      `GET /companies/:id` (None when it fails). */
  function BuildCards(summaries: seq<Summary>, userCount: string -> Option<nat>): (r: Option<seq<Card>>)
    ensures r.None? <==> exists i :: 0 <= i < |summaries| && userCount(summaries[i].id).None?
    ensures r.Some? ==> |r.value| == |summaries|
    ensures r.Some? ==> forall i :: 0 <= i < |summaries| ==>
      r.value[i] == MakeCard(summaries[i], userCount(summaries[i].id).value)
    decreases |summaries|
  {
    if summaries == [] then Some([])
    else
      var c := summaries[0];
      match userCount(c.id)
      case None => None
      case Some(n) =>
        match BuildCards(summaries[1..], userCount)
        case None =>
          var i :| 0 <= i < |summaries[1..]| && userCount(summaries[1..][i].id).None?;
          assert userCount(summaries[i + 1].id).None?;
          None
        case Some(rest) =>
          assert forall i :: 1 <= i < |summaries| ==> summaries[i] == summaries[1..][i - 1];
          Some([MakeCard(c, n)] + rest)
  }

  /** The list screen's state. */
  datatype View = View(cards: seq<Card>, loading: bool, error: string)

  const LoadFailed: string := "Не удалось загрузить компании"

  /** `fetchCompanies` once it settles: a failed list request or a failed
      detail request shows the error and keeps the cards held before; loading
      always ends. */
  function FetchCompanies(v: View, resp: Option<CompaniesResponse>, userCount: string -> Option<nat>): (r: View)
    ensures !r.loading
    ensures resp.None? ==> r == View(v.cards, false, LoadFailed)
    ensures resp.Some? && BuildCards(Summaries(resp.value), userCount).None? ==> r == View(v.cards, false, LoadFailed)
    ensures resp.Some? && BuildCards(Summaries(resp.value), userCount).Some? ==>
      r == View(BuildCards(Summaries(resp.value), userCount).value, false, "")
  {
    match resp
    case None => View(v.cards, false, LoadFailed)
    case Some(body) =>
      match BuildCards(Summaries(body), userCount)
      case None => View(v.cards, false, LoadFailed)
      case Some(cards) => View(cards, false, "")
  }

  /** One unreachable company hides every card. */
  lemma OneFailureHidesAll(a: Summary, b: Summary, userCount: string -> Option<nat>)
    requires userCount(a.id).Some? && userCount(b.id).None?
    ensures FetchCompanies(View([], true, ""), Some(PlainList([a, b])), userCount) == View([], false, LoadFailed)
  {
    assert [a, b][1] == b;
  }

  // ---------------------------------------------------------------------------
  // The list component
  // ---------------------------------------------------------------------------

  const CreatorLabel: string := "Создатель"

  /** A role name `filter(Boolean)` keeps: the non-empty ones. */
  predicate Filled(x: string) {
    x != ""
  }

  /** `filter(Boolean)` on strings: every non-empty one, as often as it
      occurs and in order. */
  function NonEmpty(s: seq<string>): (r: seq<string>)
    ensures forall x :: x in r <==> x in s && x != ""
    ensures forall x :: x != "" ==> multiset(r)[x] == multiset(s)[x]
    ensures IsSubseq(r, s)
  {
    Filter(Filled, s)
  }

  lemma NonEmptyKeepsFilled(s: seq<string>)
    requires forall i :: 0 <= i < |s| ==> s[i] != ""
    ensures NonEmpty(s) == s
  {
    FilterKeepsAll(Filled, s);
  }

  /** The roles line of a card: "Создатель" first for a creator, then the
      non-empty roles, joined by ", ". */
  function DisplayRoles(card: Card): (r: string)
    ensures card.isCreator ==> StartsWith(r, CreatorLabel)
    ensures !card.isCreator && (forall i :: 0 <= i < |card.roles| ==> card.roles[i] == "") ==> r == ""
  {
    var parts := NonEmpty((if card.isCreator then [CreatorLabel] else []) + card.roles);
    assert parts != [] ==> parts[0] in parts;
    Join(parts, ", ")
  }

  /** With no empty role names the line is the creator label (for a creator)
      followed by exactly the card's roles. */
  lemma DisplayRolesExact(card: Card)
    requires forall i :: 0 <= i < |card.roles| ==> card.roles[i] != ""
    ensures card.isCreator ==> DisplayRoles(card) == Join([CreatorLabel] + card.roles, ", ")
    ensures !card.isCreator ==> DisplayRoles(card) == Join(card.roles, ", ")
  {
    var all := (if card.isCreator then [CreatorLabel] else []) + card.roles;
    if !card.isCreator {
      assert all == card.roles;
    }
    NonEmptyKeepsFilled(all);
  }

  /** Empty role names never show: every card reads as the same card with
      its empty roles removed, i.e. the creator label (for a creator)
      followed by the non-empty roles in order. */
  lemma EmptyRolesDropped(card: Card)
    ensures DisplayRoles(card) == DisplayRoles(card.(roles := NonEmpty(card.roles)))
    ensures card.isCreator ==> DisplayRoles(card) == Join([CreatorLabel] + NonEmpty(card.roles), ", ")
    ensures !card.isCreator ==> DisplayRoles(card) == Join(NonEmpty(card.roles), ", ")
  {
    var head: seq<string> := if card.isCreator then [CreatorLabel] else [];
    var filled := NonEmpty(card.roles);
    FilterConcat(Filled, head, card.roles);
    FilterConcat(Filled, head, filled);
    FilterTwice(Filled, card.roles);
    FilterKeepsAll(Filled, head);
    if !card.isCreator {
      assert head + filled == filled;
    }
  }

  /** A tile of the grid. */
  datatype Tile = CompanyTile(card: Card) | CreateTile

  /** What `CompaniesList` renders. */
  datatype ListView = EmptyState | Grid(tiles: seq<Tile>)

  /** No companies give the empty state; otherwise one tile per company, in
      order, followed by the create tile. */
  function RenderList(cards: seq<Card>): (v: ListView)
    ensures v.EmptyState? <==> cards == []
    ensures v.Grid? ==> |v.tiles| == |cards| + 1 && v.tiles[|cards|] == CreateTile
    ensures v.Grid? ==> forall i :: 0 <= i < |cards| ==> v.tiles[i] == CompanyTile(cards[i])
  {
    if cards == [] then EmptyState
    else Grid(seq(|cards|, i requires 0 <= i < |cards| => CompanyTile(cards[i])) + [CreateTile])
  }
}
