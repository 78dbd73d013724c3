/** The corporate OKR page: the create-objective form with its key-result
    list (each key result assigned to teams through checkboxes) and the team
    names shown under a key result. */
module CompanyOkrs {
  import opened Common

  /** A corporate key result being drafted: its teams are team ids. */
  datatype KrDraft = KrDraft(title: string, description: string, teams: seq<string>)

  const BlankKr: KrDraft := KrDraft("", "", [])

  datatype ObjectiveForm = ObjectiveForm(objective: string, description: string, keyResults: seq<KrDraft>)

  /** The form the page starts with and resets to after a creation. */
  const InitialForm: ObjectiveForm := ObjectiveForm("", "", [BlankKr])

  /** `handleAddKeyResult`. */
  function AddKeyResult(f: ObjectiveForm): (r: ObjectiveForm)
    ensures r.keyResults == f.keyResults + [BlankKr]
    ensures r.(keyResults := f.keyResults) == f
  {
    f.(keyResults := f.keyResults + [BlankKr])
  }

  /** `handleRemoveKeyResult`: offered for every key result, the last one included. */
  function RemoveKeyResult(f: ObjectiveForm, index: int): (r: ObjectiveForm)
    ensures 0 <= index < |f.keyResults| ==> |r.keyResults| == |f.keyResults| - 1
    ensures 0 <= index < |f.keyResults| ==>
      f.keyResults == r.keyResults[..index] + [f.keyResults[index]] + r.keyResults[index..]
    ensures r.(keyResults := f.keyResults) == f
  {
    var ks := RemoveAt(f.keyResults, index);
    assert 0 <= index < |f.keyResults| ==>
      f.keyResults == ks[..index] + [f.keyResults[index]] + ks[index..];
    f.(keyResults := ks)
  }

  /** Unlike the team modal, this form can lose its last key result. */
  lemma FormCanBecomeEmpty()
    ensures RemoveKeyResult(InitialForm, 0).keyResults == []
  {
  }

  /** The values `handleKeyResultChange` writes: a text field or the team list. */
  datatype KrEdit = SetTitle(title: string) | SetDescription(description: string) | SetTeams(teams: seq<string>)

  function ApplyEdit(kr: KrDraft, e: KrEdit): KrDraft {
    match e
    case SetTitle(t) => kr.(title := t)
    case SetDescription(d) => kr.(description := d)
    case SetTeams(ts) => kr.(teams := ts)
  }

  /** `handleKeyResultChange(index, field, value)`: only that key result changes. */
  function KeyResultChange(f: ObjectiveForm, index: int, e: KrEdit): (r: ObjectiveForm)
    ensures |r.keyResults| == |f.keyResults|
    ensures forall j :: 0 <= j < |f.keyResults| && j != index ==> r.keyResults[j] == f.keyResults[j]
    ensures 0 <= index < |f.keyResults| ==> r.keyResults[index] == ApplyEdit(f.keyResults[index], e)
    ensures r.(keyResults := f.keyResults) == f
  {
    f.(keyResults := UpdateAt(f.keyResults, index, (kr: KrDraft) => ApplyEdit(kr, e)))
  }

  /** The team checkbox of a key result: checked while the id is in the
      list; checking appends it, unchecking removes every occurrence. */
  function TeamCheckbox(teams: seq<string>, teamId: string): (r: seq<string>)
    ensures teamId in r <==> teamId !in teams
    ensures forall y :: y != teamId ==> (y in r <==> y in teams)
    ensures teamId !in teams ==> r == teams + [teamId]
    ensures teamId in teams ==> r == Without(teams, teamId)
  {
    ListToggle(teams, teamId)
  }

  /** Since the box is checked exactly when the id is present, clicking never
      duplicates a team, and checking then unchecking restores the list. */
  lemma CheckboxRoundTrip(teams: seq<string>, teamId: string)
    requires NoDuplicates(teams)
    ensures NoDuplicates(TeamCheckbox(teams, teamId))
    ensures teamId !in teams ==> TeamCheckbox(TeamCheckbox(teams, teamId), teamId) == teams
  {
    ListToggleKeepsNoDuplicates(teams, teamId);
    if teamId !in teams {
      ListToggleUndoesAppend(teams, teamId);
    }
  }

  /** The page's view of the create form. */
  datatype Editor = Editor(showForm: bool, form: ObjectiveForm)

  /** The browser's constraint validation: the objective, the description
      and every key result's title and description are `required`, so none
      may be empty (blank text that is not empty passes). */
  predicate Fillable(f: ObjectiveForm) {
    && f.objective != "" && f.description != ""
    && forall i :: 0 <= i < |f.keyResults| ==> f.keyResults[i].title != "" && f.keyResults[i].description != ""
  }

  /** What a click on "Создать" leaves: the editor, whether the objective
      was posted, and whether the objectives are fetched again. */
  datatype AfterCreate = AfterCreate(editor: Editor, posted: bool, refetch: bool)

  /** `handleCreateObjective`, reached only when the browser accepts the
      form: on success the form hides, resets to one blank key result and
      the list is fetched again; a failure, or a form the browser refuses,
      keeps the editor as it is. */
  function CreateObjective(ed: Editor, succeeded: bool): (r: AfterCreate)
    ensures r.posted <==> Fillable(ed.form)
    ensures r.refetch <==> r.posted && succeeded
    ensures r.refetch ==> r.editor == Editor(false, InitialForm)
    ensures !r.refetch ==> r.editor == ed
  {
    if !Fillable(ed.form) then AfterCreate(ed, false, false)
    else if succeeded then AfterCreate(Editor(false, InitialForm), true, true)
    else AfterCreate(ed, true, false)
  }

  /** The reset form cannot be posted again until it is filled in, while a
      form whose key results were all removed needs only the objective and
      the description: an objective without key results can be posted. */
  lemma PostNeedsFilledForm(objective: string, description: string)
    requires objective != "" && description != ""
    ensures !CreateObjective(Editor(true, InitialForm), true).posted
    ensures var emptied := RemoveKeyResult(InitialForm, 0).(objective := objective, description := description);
      CreateObjective(Editor(true, emptied), true).posted
  {
    assert InitialForm.keyResults[0].title == "";
  }

  /** A company team as listed for the checkboxes. */
  datatype TeamRef = TeamRef(id: string, name: string)

  /** `teams.find(t => t._id === id)?.name`, with a missing team shown as the
      empty string (the way `join` prints `undefined`). */
  function TeamName(teams: seq<TeamRef>, id: string): (r: string)
    ensures (forall i :: 0 <= i < |teams| ==> teams[i].id != id) ==> r == ""
    ensures (exists i :: 0 <= i < |teams| && teams[i].id == id) ==>
      exists i :: 0 <= i < |teams| && teams[i].id == id && r == teams[i].name &&
        forall j :: 0 <= j < i ==> teams[j].id != id
  {
    match Find((t: TeamRef) => t.id == id, teams)
    case None => ""
    case Some(t) => t.name
  }

  /** The names of the teams with these ids, one per id. */
  function TeamNames(teams: seq<TeamRef>, ids: seq<string>): seq<string> {
    seq(|ids|, i requires 0 <= i < |ids| => TeamName(teams, ids[i]))
  }

  /** The "Команды:" line under a key result: the first id's team name, then
      ", " and the line for the remaining ids. */
  function TeamsLabel(teams: seq<TeamRef>, ids: seq<string>): (r: string)
    ensures ids == [] ==> r == ""
    ensures |ids| == 1 ==> r == TeamName(teams, ids[0])
    ensures |ids| >= 2 ==> r == TeamName(teams, ids[0]) + ", " + TeamsLabel(teams, ids[1..])
  {
    var names := TeamNames(teams, ids);
    assert |ids| >= 2 ==> names[1..] == TeamNames(teams, ids[1..]);
    Join(names, ", ")
  }

  /** Every further team adds ", " and its name (blank for an unknown id) at
      the end of the line. */
  lemma TeamsLabelAppend(teams: seq<TeamRef>, ids: seq<string>, id: string)
    requires ids != []
    ensures TeamsLabel(teams, ids + [id]) == TeamsLabel(teams, ids) + ", " + TeamName(teams, id)
  {
    assert TeamNames(teams, ids + [id]) == TeamNames(teams, ids) + [TeamName(teams, id)];
    JoinAppend(TeamNames(teams, ids), TeamName(teams, id), ", ");
  }

  /** An unknown team id contributes an empty name: a key result assigned to
      one unknown and one known team reads ", <name>". */
  lemma UnknownTeamShowsBlank(known: TeamRef, unknown: string)
    requires unknown != known.id
    ensures TeamsLabel([known], [unknown, known.id]) == ", " + known.name
  {
    assert [unknown, known.id][1..] == [known.id];
  }
}
