/** The team members page: the member list built from the team record, the
    selection shared by the member list and the search results, the search
    over company users, and the bulk add/remove requests. */
module TeamMembers {
  import opened Common
  import opened Domain

  /** `member.userId` as populated by the team endpoint. */
  datatype UserRef = UserRef(id: string, name: string, email: string)

  /** One membership record: the user and the record's own `_id`. */
  datatype MemberRecord = MemberRecord(userId: UserRef, recordId: string)

  /** A listed member: the user's fields, no roles, and the record id used
      for removal. */
  datatype Member = Member(id: string, name: string, email: string, roles: seq<string>, recordId: string)

  function FormatMember(m: MemberRecord): Member {
    Member(m.userId.id, m.userId.name, m.userId.email, [], m.recordId)
  }

  /** The member list of `fetchTeamAndMembers`: one entry per record, in
      order; a team without a members field gives the empty list. */
  function FormatMembers(records: Option<seq<MemberRecord>>): (r: seq<Member>)
    ensures records.None? ==> r == []
    ensures records.Some? ==> |r| == |records.value|
    ensures records.Some? ==> forall i :: 0 <= i < |r| ==>
      && r[i].id == records.value[i].userId.id
      && r[i].name == records.value[i].userId.name
      && r[i].email == records.value[i].userId.email
      && r[i].recordId == records.value[i].recordId
      && r[i].roles == []
  {
    match records
    case None => []
    case Some(rs) => seq(|rs|, i requires 0 <= i < |rs| => FormatMember(rs[i]))
  }

  /** How `fetchTeamAndMembers` settles: no team id leaves the list alone, a
      failed request empties it. */
  function FetchMembers(current: seq<Member>, teamId: string, fetched: Option<Option<seq<MemberRecord>>>): (r: seq<Member>)
    ensures teamId == "" ==> r == current
    ensures teamId != "" && fetched.None? ==> r == []
    ensures teamId != "" && fetched.Some? ==> r == FormatMembers(fetched.value)
  {
    if teamId == "" then current
    else match fetched
      case None => []
      case Some(records) => FormatMembers(records)
  }

  // ---------------------------------------------------------------------------
  // Search
  // ---------------------------------------------------------------------------

  /** `user.id === team?.createdBy`: with no team loaded nobody is the creator. */
  predicate IsCreator(u: CompanyUser, team: Option<Team>) {
    team.Some? && u.id == team.value.createdBy
  }

  /** `members.some(member => member.id === user.id)`. */
  predicate IsMember(u: CompanyUser, members: seq<Member>) {
    exists i :: 0 <= i < |members| && members[i].id == u.id
  }

  /** The lower-cased name or e-mail contains the lower-cased query. */
  predicate MatchesQuery(u: CompanyUser, query: string) {
    Contains(LowerStr(u.name), LowerStr(query)) || Contains(LowerStr(u.email), LowerStr(query))
  }

  predicate Eligible(u: CompanyUser, query: string, team: Option<Team>, members: seq<Member>) {
    !IsCreator(u, team) && !IsMember(u, members) && MatchesQuery(u, query)
  }

  /** `handleSearch` for an explicit query. The query is checked for
      blankness after trimming but matched untrimmed. */
  function Search(query: string, users: seq<CompanyUser>, team: Option<Team>, members: seq<Member>): (r: seq<CompanyUser>)
    ensures IsBlank(query) ==> r == []
    ensures IsSubseq(r, users)
    ensures forall i :: 0 <= i < |r| ==> !IsCreator(r[i], team) && !IsMember(r[i], members)
    ensures forall i :: 0 <= i < |r| ==> MatchesQuery(r[i], query)
    ensures !IsBlank(query) ==> forall u :: u in users ==> (u in r <==> Eligible(u, query, team, members))
  {
    if IsBlank(query) then []
    else Filter((u: CompanyUser) => Eligible(u, query, team, members), users)
  }

  /** A member of the team is never offered again, whatever the query. */
  lemma MembersNeverFound(query: string, users: seq<CompanyUser>, team: Option<Team>, members: seq<Member>, i: int)
    requires 0 <= i < |members|
    ensures forall u :: u in Search(query, users, team, members) ==> u.id != members[i].id
  {
    var r := Search(query, users, team, members);
    forall u | u in r
      ensures u.id != members[i].id
    {
      var k :| 0 <= k < |r| && r[k] == u;
      assert !IsMember(r[k], members);
    }
  }

  /** A query of spaces trims to empty and finds nobody, although a name
      with two spaces in it would contain the untrimmed query. */
  lemma SpacesFindNobody(users: seq<CompanyUser>, team: Option<Team>, members: seq<Member>)
    ensures Search("  ", users, team, members) == []
  {
    BlankIffAllSpace("  ");
  }

  // ---------------------------------------------------------------------------
  // Selection and the bulk requests
  // ---------------------------------------------------------------------------

  /** The members ticked in the list, in list order. */
  function SelectedMembers(members: seq<Member>, selected: set<string>): seq<Member> {
    Filter((m: Member) => m.id in selected, members)
  }

  /** `members.filter(m => selected.has(m.id)).map(m => m._id)`: the record
      id of each selected member, in list order. */
  function RecordIdsOf(members: seq<Member>, selected: set<string>): (r: seq<string>)
    ensures |r| <= |members|
    ensures forall x :: x in r <==> exists m :: m in members && m.id in selected && m.recordId == x
    ensures |r| == |SelectedMembers(members, selected)|
    ensures forall i :: 0 <= i < |r| ==> r[i] == SelectedMembers(members, selected)[i].recordId
    decreases |members|
  {
    if members == [] then []
    else
      var rest := RecordIdsOf(members[1..], selected);
      assert forall m :: m in members <==> m == members[0] || m in members[1..];
      if members[0].id in selected then [members[0].recordId] + rest else rest
  }

  /** `handleRemoveMembers`: no request without a team or a selection;
      otherwise the membership-record ids of the selected members. */
  function RemoveRequest(teamId: string, selected: set<string>, members: seq<Member>): (r: Option<seq<string>>)
    ensures r.None? <==> teamId == "" || |selected| == 0
    ensures r.Some? ==> r.value == RecordIdsOf(members, selected)
  {
    if teamId == "" || |selected| == 0 then None else Some(RecordIdsOf(members, selected))
  }

  /** The search results whose id is among the given ones, in result order. */
  function ChosenResults(results: seq<CompanyUser>, userIds: seq<string>): seq<CompanyUser> {
    Filter((u: CompanyUser) => u.id in userIds, results)
  }

  /** `searchResults.filter(u => userIds.includes(u.id)).map(u => u.id)`:
      the id of each chosen result, in result order. */
  function IdsToAdd(results: seq<CompanyUser>, userIds: seq<string>): (r: seq<string>)
    ensures |r| <= |results|
    ensures forall x :: x in r ==> x in userIds
    ensures forall x :: x in r <==> x in userIds && exists u :: u in results && u.id == x
    ensures |r| == |ChosenResults(results, userIds)|
    ensures forall i :: 0 <= i < |r| ==> r[i] == ChosenResults(results, userIds)[i].id
    decreases |results|
  {
    if results == [] then []
    else
      var rest := IdsToAdd(results[1..], userIds);
      assert forall u :: u in results <==> u == results[0] || u in results[1..];
      if results[0].id in userIds then [results[0].id] + rest else rest
  }

  /** `handleAddMembers(userIds)`: no request without a team or ids;
      otherwise the selected ids that are among the search results. */
  function AddRequest(teamId: string, userIds: seq<string>, results: seq<CompanyUser>): (r: Option<seq<string>>)
    ensures r.None? <==> teamId == "" || |userIds| == 0
    ensures r.Some? ==> r.value == IdsToAdd(results, userIds)
  {
    if teamId == "" || |userIds| == 0 then None else Some(IdsToAdd(results, userIds))
  }

  /** Members ticked in the member list share the selection with the search
      results; adding drops them, and can send an empty list. */
  lemma AddCanSendNothing(u: CompanyUser)
    ensures AddRequest("t", [u.id], []) == Some([])
  {
  }
}
