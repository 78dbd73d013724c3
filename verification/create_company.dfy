/** The create-company dialog: one required name field, a submit that posts
    it, and on success a reset followed by the parent's refresh and close
    callbacks. */
module CreateCompany {
  import opened Common

  /** The dialog's own state: the name, the spinner and the error line. */
  datatype Dialog = Dialog(name: string, creating: bool, error: string)

  const InitialDialog: Dialog := Dialog("", false, "")

  /** The text shown when the server gives no message. */
  const CreateFailedText: string := "Ошибка создания компании"

  /** The parent's callbacks, in the order the dialog calls them. */
  datatype Callback = OnSuccess | OnClose

  /** The form's `required` input lets a submit through only with a
      non-empty name (spaces alone count as a value). */
  predicate CanSubmit(d: Dialog) {
    d.name != ""
  }

  /** The submit button is disabled while a request runs, and only then: an
      empty name leaves it enabled and is refused by `required` instead. */
  predicate SubmitDisabled(d: Dialog)
    ensures !d.creating ==> !SubmitDisabled(d)
    ensures d.name == "" && !d.creating ==> !SubmitDisabled(d) && !CanSubmit(d)
  {
    d.creating
  }

  /** Submitting: the spinner starts and the previous error is cleared;
      None when the browser refuses the empty field. */
  function BeginCreate(d: Dialog): (r: Option<Dialog>)
    ensures r.None? <==> d.name == ""
    ensures r.Some? ==> r.value.creating && r.value.error == "" && r.value.name == d.name
  {
    if CanSubmit(d) then Some(d.(creating := true, error := "")) else None
  }

  /** The dialog after the request and the callbacks it issued. */
  datatype Settled = Settled(dialog: Dialog, callbacks: seq<Callback>)

  /** The request settles: success clears the name and calls `onSuccess`
      then `onClose`; failure shows the server message or the fallback text
      and keeps the name; the spinner stops either way. */
  function FinishCreate(d: Dialog, outcome: Option<Failure>): (r: Settled)
    ensures !r.dialog.creating
    ensures outcome.None? ==> r.dialog.name == "" && r.callbacks == [OnSuccess, OnClose]
    ensures outcome.Some? ==> r.dialog.name == d.name && r.callbacks == []
    ensures outcome.Some? ==> r.dialog.error == MessageOr(outcome.value, CreateFailedText)
  {
    match outcome
    case None => Settled(d.(name := "", creating := false), [OnSuccess, OnClose])
    case Some(f) => Settled(d.(creating := false, error := MessageOr(f, CreateFailedText)), [])
  }

  /** A failure always leaves a visible error line and the dialog open. */
  lemma FailureExplains(d: Dialog, f: Failure)
    ensures FinishCreate(d, Some(f)).dialog.error != ""
    ensures OnClose !in FinishCreate(d, Some(f)).callbacks
  {
  }

  /** The success path: the refresh is requested before the dialog closes,
      and the error cleared on submit stays cleared. */
  lemma SuccessRefreshesThenCloses(d: Dialog)
    requires CanSubmit(d)
    ensures var s := FinishCreate(BeginCreate(d).value, None);
      s.callbacks[0] == OnSuccess && s.callbacks[|s.callbacks| - 1] == OnClose
      && s.dialog == InitialDialog
  {
  }

  /** What the dialog renders: nothing while it is closed, its state otherwise. */
  function Render(isOpen: bool, d: Dialog): (r: Option<Dialog>)
    ensures r.None? <==> !isOpen
    ensures r.Some? ==> r.value == d
  {
    if isOpen then Some(d) else None
  }
}
