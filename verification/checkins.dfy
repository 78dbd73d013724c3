/** The check-in editor of an OKR: the modal that loads the OKR, lets the user
    raise each key result's actual value (never below the persisted value,
    clamped to the range for percentage metrics), recomputes the key result's
    progress, and submits the batch with a mandatory comment; and the page
    that offers the modal and posts the check-in. */
module CheckIns {
  import opened Common

  datatype MetricType = NumberMetric | PercentageMetric | CurrencyMetric | CustomMetric

  datatype KeyResult = KeyResult(
    title: string,
    description: string,
    progress: real,
    actualValue: real,
    unit: string,
    metricType: MetricType,
    startValue: real,
    targetValue: real)

  datatype Okr = Okr(
    id: string,
    objective: string,
    description: string,
    keyResults: seq<KeyResult>,
    progress: real,
    isFrozen: bool)

  /** One edited key result: its position in the OKR and the proposed values. */
  datatype Update = Update(index: int, newActualValue: real, newProgress: real)

  datatype CheckInForm = CheckInForm(okrId: string, updates: seq<Update>, comment: string)

  const CommentRequired: string := "Пожалуйста, добавьте комментарий"

  // ---------------------------------------------------------------------------
  // Progress and the edit rule
  // ---------------------------------------------------------------------------

  /** `calculateProgress`: the percentage of the way from start to target.
      The percentage branch and the generic branch are kept apart as in the
      source; the contract pins the value down independently of the branch. */
  function CalculateProgress(actual: real, start: real, target: real, metric: MetricType): (p: real)
    requires target != start
    ensures p * (target - start) == (actual - start) * 100.0
  {
    if metric == PercentageMetric then
      var span := target - start;
      var current := actual - start;
      (current / span) * 100.0
    else
      ((actual - start) / (target - start)) * 100.0
  }

  /** Both branches compute the same value; the start maps to 0 and the
      target to 100. */
  lemma ProgressFormula(actual: real, start: real, target: real, m1: MetricType, m2: MetricType)
    requires target != start
    ensures CalculateProgress(actual, start, target, m1) == CalculateProgress(actual, start, target, m2)
    ensures CalculateProgress(start, start, target, m1) == 0.0
    ensures CalculateProgress(target, start, target, m1) == 100.0
  {
    var p1 := CalculateProgress(actual, start, target, m1);
    var p2 := CalculateProgress(actual, start, target, m2);
    assert (p1 - p2) * (target - start) == 0.0;
    var z := CalculateProgress(start, start, target, m1);
    assert z * (target - start) == 0.0;
    var h := CalculateProgress(target, start, target, m1);
    assert (h - 100.0) * (target - start) == 0.0;
    ZeroProduct(h - 100.0, target - start);
  }

  lemma ZeroProduct(x: real, d: real)
    requires x * d == 0.0 && d != 0.0
    ensures x == 0.0
  {
  }

  /** Within an increasing range the progress lies in [0, 100]. */
  lemma ProgressWithinRange(actual: real, start: real, target: real, m: MetricType)
    requires start < target && start <= actual <= target
    ensures 0.0 <= CalculateProgress(actual, start, target, m) <= 100.0
  {
    var p := CalculateProgress(actual, start, target, m);
    var d := target - start;
    assert p * d == (actual - start) * 100.0;
  }

  /** The value an edit stores, or None when `updateActualValue` refuses it. */
  function AcceptedValue(kr: KeyResult, value: real): (r: Option<real>)
    ensures r.None? <==> value < kr.actualValue
    ensures r.Some? && kr.metricType != PercentageMetric ==> r.value == value
    ensures r.Some? && kr.metricType == PercentageMetric && kr.startValue <= kr.targetValue ==>
      kr.startValue <= r.value <= kr.targetValue
    ensures r.Some? && kr.metricType == PercentageMetric && kr.startValue <= value <= kr.targetValue ==>
      r.value == value
    ensures r.Some? && (kr.metricType != PercentageMetric || kr.actualValue <= kr.targetValue) ==>
      r.value >= kr.actualValue
  {
    if value < kr.actualValue then None
    else if kr.metricType == PercentageMetric then
      var capped := if kr.targetValue < value then kr.targetValue else value;
      Some(if kr.startValue > capped then kr.startValue else capped)
    else Some(value)
  }

  /** A percentage key result whose persisted value exceeds its target: the
      clamp stores a value below the persisted one. */
  lemma ClampCanUndercutPersistedValue()
    ensures var kr := KeyResult("", "", 0.0, 120.0, "%", PercentageMetric, 0.0, 100.0);
      AcceptedValue(kr, 130.0) == Some(100.0)
  {
  }

  // ---------------------------------------------------------------------------
  // The modal
  // ---------------------------------------------------------------------------

  /** The modal's state: the OKR it loaded (None until then), the form and
      the comment error. */
  datatype Editor = Editor(okr: Option<Okr>, form: CheckInForm, error: string)

  /** Every key result can be edited without dividing by zero. */
  predicate EditableRanges(okr: Okr) {
    forall i :: 0 <= i < |okr.keyResults| ==> okr.keyResults[i].targetValue != okr.keyResults[i].startValue
  }

  /** Form initialisation after the OKR loads: one update per key result, in
      order, carrying the persisted value and progress, and no comment. */
  function InitForm(okrId: string, okr: Okr): (f: CheckInForm)
    ensures f.okrId == okrId && f.comment == ""
    ensures |f.updates| == |okr.keyResults|
    ensures forall i :: 0 <= i < |f.updates| ==>
      f.updates[i] == Update(i, okr.keyResults[i].actualValue, okr.keyResults[i].progress)
  {
    CheckInForm(okrId,
      seq(|okr.keyResults|, i requires 0 <= i < |okr.keyResults| =>
        Update(i, okr.keyResults[i].actualValue, okr.keyResults[i].progress)),
      "")
  }

  /** `fetchOKR`: nothing happens while the modal is closed or without an id;
      a failed request leaves the modal as it was. */
  function Open(ed: Editor, isOpen: bool, okrId: string, fetched: Option<Okr>): (r: Editor)
    ensures !isOpen || okrId == "" || fetched.None? ==> r == ed
    ensures isOpen && okrId != "" && fetched.Some? ==>
      r.okr == fetched && r.form == InitForm(okrId, fetched.value) && r.error == ed.error
  {
    if !isOpen || okrId == "" then ed
    else match fetched
      case None => ed
      case Some(o) => Editor(Some(o), InitForm(okrId, o), ed.error)
  }

  /** `updateActualValue(index, value)`: only `updates[index]` may change. */
  function UpdateActualValue(ed: Editor, index: int, value: real): (r: Editor)
    requires ed.okr.Some? ==> 0 <= index < |ed.okr.value.keyResults|
    requires ed.okr.Some? && value >= ed.okr.value.keyResults[index].actualValue ==>
      ed.okr.value.keyResults[index].targetValue != ed.okr.value.keyResults[index].startValue
    ensures r.okr == ed.okr && r.error == ed.error
    ensures r.form.okrId == ed.form.okrId && r.form.comment == ed.form.comment
    ensures |r.form.updates| == |ed.form.updates|
    ensures forall j :: 0 <= j < |ed.form.updates| && j != index ==> r.form.updates[j] == ed.form.updates[j]
    ensures ed.okr.None? || value < ed.okr.value.keyResults[index].actualValue ==> r == ed
    ensures ed.okr.Some? && 0 <= index < |ed.form.updates| && value >= ed.okr.value.keyResults[index].actualValue ==>
      var kr := ed.okr.value.keyResults[index];
      var v := AcceptedValue(kr, value).value;
      r.form.updates[index] == Update(ed.form.updates[index].index, v,
        CalculateProgress(v, kr.startValue, kr.targetValue, kr.metricType))
  {
    match ed.okr
    case None => ed
    case Some(okr) =>
      var kr := okr.keyResults[index];
      match AcceptedValue(kr, value)
      case None => ed
      case Some(v) =>
        var p := CalculateProgress(v, kr.startValue, kr.targetValue, kr.metricType);
        ed.(form := ed.form.(updates := UpdateAt(ed.form.updates, index,
          (u: Update) => u.(newActualValue := v, newProgress := p))))
  }

  /** The comment textarea: stores the text and clears the error. */
  function EditComment(ed: Editor, text: string): (r: Editor)
    ensures r.form.comment == text && r.error == ""
    ensures r.okr == ed.okr && r.form.updates == ed.form.updates && r.form.okrId == ed.form.okrId
  {
    ed.(form := ed.form.(comment := text), error := "")
  }

  /** The form as it stands after `handleSubmit`, and what it handed on. */
  datatype Submission = Submission(editor: Editor, sent: Option<CheckInForm>)

  /** `handleSubmit`: a comment that trims to empty blocks the submission
      with an error; otherwise the error clears and the form goes out as is. */
  function Submit(ed: Editor): (r: Submission)
    ensures r.sent.None? <==> IsBlank(ed.form.comment)
    ensures r.sent.None? ==> r.editor == ed.(error := CommentRequired)
    ensures r.sent.Some? ==> r.sent.value == ed.form && r.editor == ed.(error := "")
  {
    if IsBlank(ed.form.comment) then Submission(ed.(error := CommentRequired), None)
    else Submission(ed.(error := ""), Some(ed.form))
  }

  /** A check-in is submitted exactly when its comment has a visible character. */
  lemma SubmitNeedsVisibleComment(ed: Editor)
    ensures Submit(ed).sent.Some? <==> exists i :: 0 <= i < |ed.form.comment| && !IsSpace(ed.form.comment[i])
  {
    BlankIffAllSpace(ed.form.comment);
  }

  // ---------------------------------------------------------------------------
  // The editing invariant
  // ---------------------------------------------------------------------------

  /** A percentage key result whose persisted value does not exceed its target. */
  predicate Consistent(kr: KeyResult) {
    kr.metricType == PercentageMetric ==> kr.actualValue <= kr.targetValue
  }

  /** The form has one update per key result, at its own index, and no
      proposed value lies below the persisted one. */
  predicate Tracks(f: CheckInForm, okr: Okr) {
    && |f.updates| == |okr.keyResults|
    && forall i :: 0 <= i < |f.updates| ==>
         f.updates[i].index == i && f.updates[i].newActualValue >= okr.keyResults[i].actualValue
  }

  /** A freshly initialised form tracks its OKR. */
  lemma InitTracks(okrId: string, okr: Okr)
    ensures Tracks(InitForm(okrId, okr), okr)
  {
  }

  /** Edits keep the form tracking its OKR: the editor never proposes a value
      below a consistent key result's persisted one. */
  lemma EditKeepsTracking(ed: Editor, index: int, value: real)
    requires ed.okr.Some? && 0 <= index < |ed.okr.value.keyResults|
    requires EditableRanges(ed.okr.value)
    requires forall i :: 0 <= i < |ed.okr.value.keyResults| ==> Consistent(ed.okr.value.keyResults[i])
    requires Tracks(ed.form, ed.okr.value)
    ensures Tracks(UpdateActualValue(ed, index, value).form, ed.okr.value)
  {
    var r := UpdateActualValue(ed, index, value);
    var kr := ed.okr.value.keyResults[index];
    if value >= kr.actualValue {
      assert Consistent(kr);
      assert r.form.updates[index].newActualValue == AcceptedValue(kr, value).value;
    }
  }

  /** Edits are checked against the persisted value only, not the previous
      edit: a second edit may lower the proposed value again. */
  lemma EditsNeedNotIncrease()
    ensures
      var kr := KeyResult("", "", 0.0, 20.0, "", NumberMetric, 0.0, 100.0);
      var okr := Okr("o", "", "", [kr], 0.0, false);
      var ed := Editor(Some(okr), InitForm("o", okr), "");
      var e1 := UpdateActualValue(ed, 0, 50.0);
      var e2 := UpdateActualValue(e1, 0, 30.0);
      e1.form.updates[0].newActualValue == 50.0 && e2.form.updates[0].newActualValue == 30.0
  {
    var kr := KeyResult("", "", 0.0, 20.0, "", NumberMetric, 0.0, 100.0);
    var okr := Okr("o", "", "", [kr], 0.0, false);
    var ed := Editor(Some(okr), InitForm("o", okr), "");
    assert |ed.form.updates| == 1;
  }

  // ---------------------------------------------------------------------------
  // The page
  // ---------------------------------------------------------------------------

  /** The "create check-in" button is offered iff the OKR is loaded, not
      frozen, and short of 100%. */
  predicate CanCreateCheckIn(okr: Option<Okr>)
    ensures CanCreateCheckIn(okr) ==> okr.Some? && okr.value.progress < 100.0
    ensures okr.None? ==> !CanCreateCheckIn(okr)
  {
    okr.Some? && !okr.value.isFrozen && okr.value.progress < 100.0
  }

  /** A frozen or completed OKR offers no check-in. */
  lemma NoCheckInWhenFrozenOrDone(okr: Okr)
    requires okr.isFrozen || okr.progress >= 100.0
    ensures !CanCreateCheckIn(Some(okr))
  {
  }

  /** `handleCreateCheckIn`'s request body: the submitted form with `okrId`
      replaced by the route parameter; no request without a route id. */
  function CheckInPayload(routeOkrId: Option<string>, form: CheckInForm): (r: Option<CheckInForm>)
    ensures r.None? <==> !Truthy(routeOkrId)
    ensures r.Some? ==> r.value.okrId == routeOkrId.value
    ensures r.Some? ==> r.value.updates == form.updates && r.value.comment == form.comment
  {
    if Truthy(routeOkrId) then Some(form.(okrId := routeOkrId.value)) else None
  }
}
