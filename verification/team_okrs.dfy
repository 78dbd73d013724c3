/** The team page's OKR list and its "create OKR" modal: the key-result list
    editor (which never lets the list become empty), the optional link to a
    corporate key result, the request the modal sends, the enrichment of
    linked OKRs with their corporate key result, and the status switch. */
module TeamOkrs {
  import opened Common

  /** A key result being drafted in the modal. */
  datatype KrDraft = KrDraft(title: string, description: string)

  const BlankKr: KrDraft := KrDraft("", "")

  /** A corporate key result assigned to the team, offered for linking. */
  datatype AssignedKr = AssignedKr(corporateOkrId: string, krIndex: int)

  /** The modal's form. `status` is kept in the form but never sent. */
  datatype CreateForm = CreateForm(
    objective: string,
    description: string,
    keyResults: seq<KrDraft>,
    status: string,
    parentOkr: Option<string>,
    parentKrIndex: Option<int>)

  /** The form the modal opens with: one blank key result, status active, no link. */
  const InitialForm: CreateForm := CreateForm("", "", [BlankKr], "active", None, None)

  /** The remove button is shown for a key result only while there are several. */
  predicate RemoveOffered(f: CreateForm) {
    |f.keyResults| > 1
  }

  /** `addKeyResult`: a blank key result at the end. */
  function AddKeyResult(f: CreateForm): (r: CreateForm)
    ensures r.keyResults == f.keyResults + [BlankKr]
    ensures r.(keyResults := f.keyResults) == f
  {
    f.(keyResults := f.keyResults + [BlankKr])
  }

  /** `removeKeyResult(index)`. */
  function RemoveKeyResult(f: CreateForm, index: int): (r: CreateForm)
    ensures 0 <= index < |f.keyResults| ==> |r.keyResults| == |f.keyResults| - 1
    ensures 0 <= index < |f.keyResults| ==>
      f.keyResults == r.keyResults[..index] + [f.keyResults[index]] + r.keyResults[index..]
    ensures r.(keyResults := f.keyResults) == f
  {
    var ks := RemoveAt(f.keyResults, index);
    assert 0 <= index < |f.keyResults| ==>
      f.keyResults == ks[..index] + [f.keyResults[index]] + ks[index..];
    f.(keyResults := ks)
  }

  datatype KrField = TitleField | DescriptionField

  /** `updateKeyResult(index, field, value)`: one field of one key result. */
  function UpdateKeyResult(f: CreateForm, index: int, field: KrField, value: string): (r: CreateForm)
    ensures |r.keyResults| == |f.keyResults|
    ensures forall j :: 0 <= j < |f.keyResults| && j != index ==> r.keyResults[j] == f.keyResults[j]
    ensures 0 <= index < |f.keyResults| && field == TitleField ==>
      r.keyResults[index] == f.keyResults[index].(title := value)
    ensures 0 <= index < |f.keyResults| && field == DescriptionField ==>
      r.keyResults[index] == f.keyResults[index].(description := value)
    ensures r.(keyResults := f.keyResults) == f
  {
    f.(keyResults := UpdateAt(f.keyResults, index,
      (kr: KrDraft) => if field == TitleField then kr.(title := value) else kr.(description := value)))
  }

  /** `selectAssignedKR`: links the OKR to an assigned corporate key result. */
  function SelectAssignedKr(f: CreateForm, kr: AssignedKr): (r: CreateForm)
    ensures r.parentOkr == Some(kr.corporateOkrId) && r.parentKrIndex == Some(kr.krIndex)
    ensures r.(parentOkr := f.parentOkr, parentKrIndex := f.parentKrIndex) == f
  {
    f.(parentOkr := Some(kr.corporateOkrId), parentKrIndex := Some(kr.krIndex))
  }

  /** "Отменить выбор": drops the link. */
  function CancelParent(f: CreateForm): (r: CreateForm)
    ensures r.parentOkr.None? && r.parentKrIndex.None?
    ensures r.(parentOkr := f.parentOkr, parentKrIndex := f.parentKrIndex) == f
  {
    f.(parentOkr := None, parentKrIndex := None)
  }

  /** Selecting and then cancelling restores an unlinked form. */
  lemma CancelUndoesSelect(f: CreateForm, kr: AssignedKr)
    requires f.parentOkr.None? && f.parentKrIndex.None?
    ensures CancelParent(SelectAssignedKr(f, kr)) == f
  {
  }

  /** What the user can do in the modal; a remove is only possible through
      the button, which is hidden while a single key result is left. */
  datatype FormAction =
    | AddKr
    | RemoveKr(index: int)
    | EditKr(index: int, field: KrField, value: string)
    | SelectKr(kr: AssignedKr)
    | CancelKr

  function Apply(f: CreateForm, a: FormAction): CreateForm {
    match a
    case AddKr => AddKeyResult(f)
    case RemoveKr(i) => if RemoveOffered(f) then RemoveKeyResult(f, i) else f
    case EditKr(i, field, v) => UpdateKeyResult(f, i, field, v)
    case SelectKr(kr) => SelectAssignedKr(f, kr)
    case CancelKr => CancelParent(f)
  }

  function ApplyAll(f: CreateForm, actions: seq<FormAction>): CreateForm
    decreases |actions|
  {
    if actions == [] then f else ApplyAll(Apply(f, actions[0]), actions[1..])
  }

  /** Whatever the user does, the modal keeps at least one key result. */
  lemma {:induction false} KeyResultsNeverEmpty(f: CreateForm, actions: seq<FormAction>)
    requires |f.keyResults| >= 1
    ensures |ApplyAll(f, actions).keyResults| >= 1
    decreases |actions|
  {
    if actions != [] {
      KeyResultsNeverEmpty(Apply(f, actions[0]), actions[1..]);
    }
  }

  /** The request body of `handleCreateOKR`: the link is sent only when the
      form names a (non-empty) parent OKR; the status is never sent. */
  datatype CreateRequest = CreateRequest(
    objective: string,
    description: string,
    keyResults: seq<KrDraft>,
    parentOkr: Option<string>,
    parentKrIndex: Option<int>)

  function Request(f: CreateForm): (r: CreateRequest)
    ensures r.objective == f.objective && r.description == f.description && r.keyResults == f.keyResults
    ensures r.parentOkr.Some? <==> Truthy(f.parentOkr)
    ensures Truthy(f.parentOkr) ==> r.parentOkr == f.parentOkr && r.parentKrIndex == f.parentKrIndex
    ensures !Truthy(f.parentOkr) ==> r.parentKrIndex.None?
  {
    if Truthy(f.parentOkr) then
      CreateRequest(f.objective, f.description, f.keyResults, f.parentOkr, f.parentKrIndex)
    else
      CreateRequest(f.objective, f.description, f.keyResults, None, None)
  }

  /** The browser's constraint validation: the objective input and every
      key-result title are `required`, so none may be empty (blank text
      that is not empty passes). */
  predicate Fillable(f: CreateForm) {
    f.objective != "" && forall i :: 0 <= i < |f.keyResults| ==> f.keyResults[i].title != ""
  }

  /** The modal's `handleSubmit`: the form reaches `onSubmit` only when the
      browser accepts it, so every request carries an objective and titled
      key results. */
  function SubmitForm(f: CreateForm): (r: Option<CreateRequest>)
    ensures r.Some? <==> Fillable(f)
    ensures r.Some? ==> r.value == Request(f)
    ensures r.Some? ==> r.value.objective != ""
    ensures r.Some? ==> forall i :: 0 <= i < |r.value.keyResults| ==> r.value.keyResults[i].title != ""
  {
    if Fillable(f) then Some(Request(f)) else None
  }

  /** The modal opens with an empty objective and an untitled key result:
      it cannot be submitted before both are typed in. */
  lemma InitialFormNotSubmittable(objective: string)
    ensures SubmitForm(InitialForm).None?
    ensures SubmitForm(InitialForm.(objective := objective)).None?
  {
    assert InitialForm.keyResults[0].title == "";
  }

  /** An empty key-result title anywhere blocks the submit; spaces do not. */
  lemma EmptyTitleBlocks(f: CreateForm, i: int)
    requires 0 <= i < |f.keyResults| && f.keyResults[i].title == ""
    ensures SubmitForm(f).None?
    ensures SubmitForm(UpdateKeyResult(f, i, TitleField, " ")).Some? <==>
      f.objective != "" && forall j :: 0 <= j < |f.keyResults| && j != i ==> f.keyResults[j].title != ""
  {
  }

  /** The status chosen in the form has no effect on the request. */
  lemma StatusNotSent(f: CreateForm, status: string)
    ensures Request(f.(status := status)) == Request(f)
  {
  }

  /** A linked form sends its link; cancelling the link removes it from the request. */
  lemma LinkReachesRequest(f: CreateForm, kr: AssignedKr)
    requires kr.corporateOkrId != ""
    ensures Request(SelectAssignedKr(f, kr)).parentOkr == Some(kr.corporateOkrId)
    ensures Request(SelectAssignedKr(f, kr)).parentKrIndex == Some(kr.krIndex)
    ensures Request(CancelParent(SelectAssignedKr(f, kr))).parentOkr.None?
  {
  }

  // ---------------------------------------------------------------------------
  // The OKR list
  // ---------------------------------------------------------------------------

  /** The corporate key result an OKR is linked to, as shown on its card. */
  datatype AttachedKr = AttachedKr(
    corporateOkrId: string,
    krIndex: int,
    krTitle: string,
    objective: string,
    progress: real,
    teams: seq<string>,
    linkedOkrs: seq<string>)

  /** `GET /corporate-okrs/:id/key-results/:index`. */
  datatype CorporateKr = CorporateKr(
    title: string,
    description: string,
    progress: real,
    teams: seq<string>,
    linkedOkrs: seq<string>)

  datatype TeamOkr = TeamOkr(
    id: string,
    objective: string,
    status: string,
    parentOkr: Option<string>,
    parentKrIndex: Option<int>,
    attached: Option<AttachedKr>)

  /** The OKR carries a complete link to a corporate key result. */
  predicate IsLinked(o: TeamOkr) {
    Truthy(o.parentOkr) && o.parentKrIndex.Some?
  }

  /** The per-OKR step of `fetchTeamOKRs` (and of the create handler): a
      linked OKR gets its corporate key result attached when the lookup
      succeeds; otherwise the OKR is returned as is. The key result's
      description is shown as the corporate objective. */
  function Enrich(o: TeamOkr, lookup: (string, int) -> Option<CorporateKr>): (r: TeamOkr)
    ensures r.(attached := o.attached) == o
    ensures !IsLinked(o) || lookup(o.parentOkr.value, o.parentKrIndex.value).None? ==> r == o
    ensures IsLinked(o) && lookup(o.parentOkr.value, o.parentKrIndex.value).Some? ==>
      var kr := lookup(o.parentOkr.value, o.parentKrIndex.value).value;
      r.attached == Some(AttachedKr(o.parentOkr.value, o.parentKrIndex.value,
        kr.title, kr.description, kr.progress, kr.teams, kr.linkedOkrs))
  {
    if !IsLinked(o) then o
    else match lookup(o.parentOkr.value, o.parentKrIndex.value)
      case None => o
      case Some(kr) =>
        o.(attached := Some(AttachedKr(o.parentOkr.value, o.parentKrIndex.value,
          kr.title, kr.description, kr.progress, kr.teams, kr.linkedOkrs)))
  }

  /** Enriching twice changes nothing more. */
  lemma EnrichIdempotent(o: TeamOkr, lookup: (string, int) -> Option<CorporateKr>)
    ensures Enrich(Enrich(o, lookup), lookup) == Enrich(o, lookup)
  {
  }

  /** `fetchTeamOKRs`: nothing without a team id; a failed list request keeps
      the list; otherwise every fetched OKR is enriched, independently. */
  function FetchTeamOkrs(current: seq<TeamOkr>, teamId: string, fetched: Option<seq<TeamOkr>>,
                         lookup: (string, int) -> Option<CorporateKr>): (r: seq<TeamOkr>)
    ensures teamId == "" || fetched.None? ==> r == current
    ensures teamId != "" && fetched.Some? ==>
      |r| == |fetched.value| && forall i :: 0 <= i < |r| ==> r[i] == Enrich(fetched.value[i], lookup)
  {
    if teamId == "" then current
    else match fetched
      case None => current
      case Some(okrs) => seq(|okrs|, i requires 0 <= i < |okrs| => Enrich(okrs[i], lookup))
  }

  /** The list and the modal after `handleCreateOKR`. */
  datatype AfterCreate = AfterCreate(okrs: seq<TeamOkr>, modalOpen: bool)

  /** `handleCreateOKR`: without a team id, or when the request fails,
      nothing changes; otherwise the created OKR, enriched, goes to the end
      of the list and the modal closes. */
  function HandleCreate(okrs: seq<TeamOkr>, modalOpen: bool, teamId: string, created: Option<TeamOkr>,
                        lookup: (string, int) -> Option<CorporateKr>): (r: AfterCreate)
    ensures teamId == "" || created.None? ==> r == AfterCreate(okrs, modalOpen)
    ensures teamId != "" && created.Some? ==>
      r.okrs == okrs + [Enrich(created.value, lookup)] && !r.modalOpen
  {
    if teamId == "" then AfterCreate(okrs, modalOpen)
    else match created
      case None => AfterCreate(okrs, modalOpen)
      case Some(o) => AfterCreate(okrs + [Enrich(o, lookup)], false)
  }

  /** `handleStatusChange`: on success every OKR with the id takes the new
      status; a failed request changes nothing. */
  function StatusChange(okrs: seq<TeamOkr>, id: string, status: string, succeeded: bool): (r: seq<TeamOkr>)
    ensures |r| == |okrs|
    ensures !succeeded ==> r == okrs
    ensures succeeded ==> forall i :: 0 <= i < |okrs| ==>
      r[i] == if okrs[i].id == id then okrs[i].(status := status) else okrs[i]
  {
    if !succeeded then okrs
    else
      seq(|okrs|, i requires 0 <= i < |okrs| =>
        if okrs[i].id == id then okrs[i].(status := status) else okrs[i])
  }

  /** A successful status change is a projection: repeating it, or
      overwriting it with another status, only the last status counts. */
  lemma {:induction false} StatusChangeLastWins(okrs: seq<TeamOkr>, id: string, s1: string, s2: string)
    ensures StatusChange(StatusChange(okrs, id, s1, true), id, s2, true) == StatusChange(okrs, id, s2, true)
  {
    var a := StatusChange(StatusChange(okrs, id, s1, true), id, s2, true);
    var b := StatusChange(okrs, id, s2, true);
    assert |a| == |b|;
    forall i | 0 <= i < |a|
      ensures a[i] == b[i]
    {
    }
  }
}
