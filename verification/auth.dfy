/** The login and registration forms. Both submit handlers follow one shape:
    clear the error and raise `loading`, call the auth endpoint, then either
    persist token and user and go to `/`, or show an error; `loading` drops
    on every outcome. */
module Auth {
  import opened Common
  import opened Session

  datatype AuthForm = LoginForm | RegisterForm

  /** How the auth request settled. */
  datatype AuthOutcome = Authenticated(token: string, user: Profile) | Rejected(failure: Failure)

  /** The form's visible state besides the input fields. */
  datatype FormState = FormState(error: string, loading: bool)

  const NetworkError: string := "Ошибка сети"
  const LoginFailed: string := "Ошибка авторизации"
  const RegisterFailed: string := "Ошибка регистрации"

  /** The text shown when the request fails. */
  function ErrorText(form: AuthForm, f: Failure): (msg: string)
    ensures f.NoResponse? ==> msg == NetworkError
    ensures f.ServerError? && Truthy(f.message) ==> msg == f.message.value
    ensures f.ServerError? && !Truthy(f.message) ==> msg == (if form.LoginForm? then LoginFailed else RegisterFailed)
  {
    match f
    case NoResponse => NetworkError
    case ServerError(_) => MessageOr(f, if form.LoginForm? then LoginFailed else RegisterFailed)
  }

  /** The synchronous start of `handleSubmit`. */
  function BeginSubmit(st: FormState): (r: FormState)
    ensures r.error == "" && r.loading
  {
    FormState("", true)
  }

  /** Everything a submit leaves behind. */
  datatype Submitted = Submitted(state: FormState, storage: Storage, navigateTo: Option<string>)

  /** `handleSubmit` from click to settlement. */
  function HandleSubmit(form: AuthForm, st: FormState, storage: Storage, outcome: AuthOutcome): (r: Submitted)
    ensures !r.state.loading
    ensures outcome.Authenticated? ==>
      && r.storage == SaveSession(outcome.token, outcome.user)
      && r.navigateTo == Some("/")
      && r.state.error == ""
    ensures outcome.Rejected? ==>
      && r.storage == storage
      && r.navigateTo.None?
      && r.state.error == ErrorText(form, outcome.failure)
  {
    var started := BeginSubmit(st);
    match outcome
    case Authenticated(token, user) =>
      Submitted(started.(loading := false), SaveSession(token, user), Some("/"))
    case Rejected(f) =>
      Submitted(FormState(ErrorText(form, f), false), storage, None)
  }

  /** A submit keeps token and user coupled, and a failed one never shows an
      empty error. */
  lemma SubmitKeepsSessionCoupled(form: AuthForm, st: FormState, storage: Storage, outcome: AuthOutcome)
    requires Coupled(storage)
    ensures Coupled(HandleSubmit(form, st, storage, outcome).storage)
    ensures outcome.Rejected? ==> HandleSubmit(form, st, storage, outcome).state.error != ""
  {
  }

  // ---------------------------------------------------------------------------
  // The browser's constraint validation
  // ---------------------------------------------------------------------------

  predicate IsAlnum(c: char) {
    'a' <= c <= 'z' || 'A' <= c <= 'Z' || '0' <= c <= '9'
  }

  /** A character HTML allows before the '@' of an e-mail address. */
  predicate IsLocalChar(c: char) {
    IsAlnum(c) || c in ".!#$%&'*+/=?^_`{|}~-"
  }

  /** A domain label: 1 to 63 letters, digits or hyphens, starting and
      ending with a letter or digit. */
  predicate IsLabel(l: string) {
    && 1 <= |l| <= 63
    && IsAlnum(l[0]) && IsAlnum(l[|l| - 1])
    && forall i :: 0 <= i < |l| ==> IsAlnum(l[i]) || l[i] == '-'
  }

  /** Labels separated by single dots. */
  predicate IsDomain(d: string)
    decreases |d|
  {
    || IsLabel(d)
    || exists i :: 0 < i < |d| && d[i] == '.' && IsLabel(d[..i]) && IsDomain(d[i + 1..])
  }

  /** The "valid e-mail address" an `<input type="email">` demands: local
      characters, one '@', then a domain. An empty field is left to
      `required`. */
  predicate ValidEmail(e: string) {
    exists i :: 0 < i < |e| && e[i] == '@' && (forall j :: 0 <= j < i ==> IsLocalChar(e[j])) && IsDomain(e[i + 1..])
  }

  /** The registration form: every field is `required`, the e-mail field has
      `type="email"`, and the password has `minLength={6}`, counted in UTF-16
      code units. */
  predicate RegisterInputAccepted(name: string, email: string, password: string)
    ensures RegisterInputAccepted(name, email, password) ==> |password| >= 3 && '@' in email
  {
    name != "" && email != "" && ValidEmail(email) && Utf16Length(password) >= 6
  }

  /** The login form: both fields are `required` and the e-mail field has
      `type="email"`; the password has no length rule. */
  predicate LoginInputAccepted(email: string, password: string)
    ensures LoginInputAccepted(email, password) ==> '@' in email && password != ""
  {
    email != "" && ValidEmail(email) && password != ""
  }

  /** A password under six code units never reaches the server. */
  lemma ShortPasswordBlocked(name: string, email: string, password: string)
    requires Utf16Length(password) < 6
    ensures !RegisterInputAccepted(name, email, password)
  {
  }

  /** `minLength` counts code units: five letters are refused, while three
      emoji (two units each) pass. */
  lemma MinLengthCountsCodeUnits()
    ensures !RegisterInputAccepted("n", "a@b", "abcde")
    ensures RegisterInputAccepted("n", "a@b", "\U{1F600}\U{1F600}\U{1F600}")
  {
    assert "a@b"[1] == '@' && IsDomain("a@b"[2..]);
    var p := "\U{1F600}\U{1F600}\U{1F600}";
    assert p[1..][1..][1..] == [];
  }

  /** Either empty login field, or a text without an address shape, keeps
      the form from submitting. */
  lemma EmptyOrMalformedBlocksLogin(email: string, password: string)
    ensures email == "" || password == "" ==> !LoginInputAccepted(email, password)
    ensures !LoginInputAccepted("not-an-email", password)
  {
    var e := "not-an-email";
    assert forall i :: 0 <= i < |e| ==> e[i] != '@';
  }
}
