/** The sign-in / sign-up dialog: its form state, the submit handler split at its
    await point, the mode switches, and what the open dialog shows. */
module AuthModal {
  import opened Common
  import Api

  datatype Mode = SignInMode | SignUpMode

  /** The other mode. */
  function Flip(m: Mode): (r: Mode)
    ensures r != m && (m == SignInMode <==> r == SignUpMode)
  {
    if m == SignInMode then SignUpMode else SignInMode
  }

  /** The texts the dialog's logic chooses between, in one language. */
  datatype Texts = Texts(
    signIn: string,
    signUp: string,
    signInButton: string,
    signUpButton: string,
    switchToSignUp: string,
    switchToSignIn: string,
    signingIn: string,
    creatingAccount: string,
    errorGeneric: string)

  function TextsFor(lang: Lang): Texts {
    match lang
    case En => Texts("Sign In", "Sign Up", "Sign In", "Create Account",
                     "Don't have an account?", "Already have an account?",
                     "Signing in...", "Creating account...", "Something went wrong. Please try again.")
    case Ru => Texts("Войти", "Регистрация", "Войти", "Создать аккаунт",
                     "Нет аккаунта?", "Уже есть аккаунт?",
                     "Вход...", "Создание аккаунта...", "Что-то пошло не так. Попробуйте снова.")
    case Uz => Texts("Kirish", "Ro'yxatdan o'tish", "Kirish", "Akkaunt yaratish",
                     "Akkauntingiz yo'qmi?", "Akkauntingiz bormi?",
                     "Kirilmoqda...", "Akkaunt yaratilmoqda...", "Xatolik yuz berdi. Qaytadan urinib ko'ring.")
  }

  /** The dialog's state fields, as one value. */
  datatype FormState = FormState(
    mode: Mode,
    username: string,
    password: string,
    showPassword: bool,
    isSubmitting: bool,
    error: Option<string>)

  const InitialState := FormState(SignInMode, "", "", false, false, None)

  /** The call a submit makes: `onSignIn` or `onSignUp`, with the typed credentials. */
  datatype AuthCall = AuthCall(kind: Api.AuthKind, credentials: Api.Credentials)

  function KindOf(m: Mode): (k: Api.AuthKind)
    ensures k == Api.SignIn <==> m == SignInMode
  {
    if m == SignInMode then Api.SignIn else Api.SignUp
  }

  /** The error text a rejected call leaves: the message of an `Error`, else the
      generic text. A fulfilled call leaves the error as it is. */
  function ErrorAfter(outcome: Settled, t: Texts, error: Option<string>): (e: Option<string>)
    ensures outcome.Fulfilled? ==> e == error
    ensures outcome.Rejected? && outcome.reason.ErrorObject? ==> e == Some(outcome.reason.message)
    ensures outcome.Rejected? && outcome.reason.OtherValue? ==> e == Some(t.errorGeneric)
  {
    match outcome
    case Fulfilled => error
    case Rejected(ErrorObject(m)) => Some(m)
    case Rejected(OtherValue) => Some(t.errorGeneric)
  }

  /** `{error && (...)}`: an error is shown only when it is a non-empty string. */
  function ShownError(error: Option<string>): (shown: Option<string>)
    ensures shown.Some? <==> error.Some? && error.value != ""
    ensures shown.Some? ==> shown == error
  {
    if error.Some? && error.value != "" then error else None
  }

  /** The submit button's label. */
  function SubmitLabel(t: Texts, isSubmitting: bool, mode: Mode): string {
    if isSubmitting then (if mode == SignInMode then t.signingIn else t.creatingAccount)
    else (if mode == SignInMode then t.signInButton else t.signUpButton)
  }

  /** The four submit labels are pairwise different. */
  predicate LabelsDiffer(t: Texts) {
    && t.signingIn != t.creatingAccount && t.signingIn != t.signInButton && t.signingIn != t.signUpButton
    && t.creatingAccount != t.signInButton && t.creatingAccount != t.signUpButton
    && t.signInButton != t.signUpButton
  }

  lemma LabelsDifferInEveryLanguage(lang: Lang)
    ensures LabelsDiffer(TextsFor(lang))
  {
    match lang
    case En =>
    case Ru =>
    case Uz =>
  }

  /** In every language the label tells both the submitting flag and the mode. */
  lemma SubmitLabelDeterminesState(lang: Lang, s1: bool, m1: Mode, s2: bool, m2: Mode)
    ensures SubmitLabel(TextsFor(lang), s1, m1) == SubmitLabel(TextsFor(lang), s2, m2) <==> s1 == s2 && m1 == m2
  {
    LabelsDifferInEveryLanguage(lang);
  }

  /** What the open dialog shows. */
  datatype AuthView = AuthView(
    activeTab: Mode,
    passwordVisible: bool,
    submitDisabled: bool,
    submitLabel: string,
    error: Option<string>,
    switchPrompt: string,
    switchAction: string)

  /** The dialog for a state: nothing when closed. */
  function Render(isOpen: bool, t: Texts, s: FormState): (v: Option<AuthView>)
    ensures v.None? <==> !isOpen
    ensures v.Some? ==> v.value.activeTab == s.mode && v.value.passwordVisible == s.showPassword
    ensures v.Some? ==> v.value.submitDisabled == s.isSubmitting
    ensures v.Some? ==> v.value.submitLabel == SubmitLabel(t, s.isSubmitting, s.mode)
    ensures v.Some? ==> v.value.error == ShownError(s.error)
    ensures v.Some? ==> v.value.switchPrompt == (if s.mode == SignInMode then t.switchToSignUp else t.switchToSignIn)
    ensures v.Some? ==> v.value.switchAction == (if s.mode == SignInMode then t.signUp else t.signIn)
  {
    if !isOpen then None
    else Some(AuthView(
      s.mode, s.showPassword, s.isSubmitting, SubmitLabel(t, s.isSubmitting, s.mode), ShownError(s.error),
      if s.mode == SignInMode then t.switchToSignUp else t.switchToSignIn,
      if s.mode == SignInMode then t.signUp else t.signIn))
  }

  /** How the page's handler settles for a client failure: every failure the client
      raises is an `Error`; `runtimeMessage` is the message the runtime gives its own. */
  function ReasonOf(f: Api.Failure, runtimeMessage: string): (r: Reason)
    ensures r.ErrorObject?
    ensures Api.FailureMessage(f).Some? ==> r.message == Api.FailureMessage(f).value
  {
    ErrorObject(Api.FailureMessage(f).GetOr(runtimeMessage))
  }

  /** A sign-in or sign-up the server refuses always leaves a visible error: the
      server's message or the failure prefix with the status text, never the generic text. */
  lemma RefusedCallShowsError(kind: Api.AuthKind, json: Option<Api.Body>, statusText: string,
                              t: Texts, error: Option<string>, runtimeMessage: string)
    ensures var f := Api.AuthFailed(Api.AuthFailureMessage(kind, json, statusText));
      var e := ErrorAfter(Rejected(ReasonOf(f, runtimeMessage)), t, error);
      && e == Some(Api.AuthFailureMessage(kind, json, statusText))
      && ShownError(e).Some?
  {
    var m := Api.AuthFailureMessage(kind, json, statusText);
    if !(Api.ErrorBodyMessage(json).Val? && Api.ErrorBodyMessage(json).value != "") {
      assert m == Api.FailurePrefix(kind) + statusText;
      assert m[0] == Api.FailurePrefix(kind)[0];
    }
  }

  class Form {
    var mode: Mode
    var username: string
    var password: string
    var showPassword: bool
    var isSubmitting: bool
    var error: Option<string>

    function Snapshot(): FormState
      reads this
    {
      FormState(mode, username, password, showPassword, isSubmitting, error)
    }

    constructor ()
      ensures Snapshot() == InitialState
    {
      mode, username, password := SignInMode, "", "";
      showPassword, isSubmitting, error := false, false, None;
    }

    /** `handleSubmit` up to its await: the error is cleared, the form turns busy, and
        the call for the current mode is made with the typed credentials. */
    method StartSubmit() returns (call: AuthCall)
      modifies this
      ensures call == AuthCall(KindOf(old(mode)), Api.Credentials(old(username), old(password)))
      ensures Snapshot() == old(Snapshot()).(error := None, isSubmitting := true)
    {
      error := None;
      isSubmitting := true;
      var credentials := Api.Credentials(username, password);
      call := AuthCall(KindOf(mode), credentials);
    }

    /** `handleSubmit` after its await: a fulfilled call closes the dialog; a rejected
        one records its error and keeps it open. The form is no longer busy. */
    method FinishSubmit(outcome: Settled, t: Texts) returns (closed: bool)
      modifies this
      ensures closed <==> outcome.Fulfilled?
      ensures Snapshot() == old(Snapshot()).(error := ErrorAfter(outcome, t, old(error)), isSubmitting := false)
    {
      closed := false;
      match outcome {
        case Fulfilled =>
          closed := true;
        case Rejected(reason) =>
          error := if reason.ErrorObject? then Some(reason.message) else Some(t.errorGeneric);
      }
      isSubmitting := false;
    }

    /** The whole submit, for a call that settles with `outcome`. */
    method Submit(outcome: Settled, t: Texts) returns (call: AuthCall, closed: bool)
      modifies this
      ensures call == AuthCall(KindOf(old(mode)), Api.Credentials(old(username), old(password)))
      ensures closed <==> outcome.Fulfilled?
      ensures Snapshot() == old(Snapshot()).(error := ErrorAfter(outcome, t, None), isSubmitting := false)
      ensures outcome.Fulfilled? ==> error == None
    {
      call := StartSubmit();
      closed := FinishSubmit(outcome, t);
    }

    /** `switchMode`: the other mode, and no error. */
    method SwitchMode()
      modifies this
      ensures Snapshot() == old(Snapshot()).(mode := Flip(old(mode)), error := None)
    {
      mode := if mode == SignInMode then SignUpMode else SignInMode;
      error := None;
    }

    /** A tab: sets the mode and keeps the error. */
    method SelectMode(m: Mode)
      modifies this
      ensures Snapshot() == old(Snapshot()).(mode := m)
    {
      mode := m;
    }

    method EditUsername(value: string)
      modifies this
      ensures Snapshot() == old(Snapshot()).(username := value)
    {
      username := value;
    }

    method EditPassword(value: string)
      modifies this
      ensures Snapshot() == old(Snapshot()).(password := value)
    {
      password := value;
    }

    /** The eye button. */
    method TogglePasswordVisibility()
      modifies this
      ensures Snapshot() == old(Snapshot()).(showPassword := !old(showPassword))
    {
      showPassword := !showPassword;
    }
  }
}
