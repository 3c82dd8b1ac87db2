/**
 * The sign-in / sign-up screen (`src/app/login.tsx`): translation of the
 * auth service's error messages, the mode switch, the submission's state
 * transitions and the submit button's caption.
 */
module Login {
  import opened Wrappers

  /** The four service messages the screen translates, and their translations. */
  const InvalidCredentials: string := "Invalid login credentials"
  const AlreadyRegistered: string := "User already registered"
  const PasswordTooShort: string := "Password should be at least 6 characters"
  const EmailNotConfirmed: string := "Email not confirmed"

  const InvalidCredentialsText: string := "Credenciales incorrectas. Por favor, verifica tu correo y contraseña."
  const AlreadyRegisteredText: string := "El usuario ya está registrado. Intenta iniciar sesión."
  const PasswordTooShortText: string := "La contraseña debe tener al menos 6 caracteres."
  const EmailNotConfirmedText: string := "Correo electrónico no confirmado. Revisa tu bandeja de entrada."

  const KnownErrors: set<string> := {InvalidCredentials, AlreadyRegistered, PasswordTooShort, EmailNotConfirmed}

  /** `getErrorMessage`: exact-match translation; anything else is shown as it came. */
  function ErrorMessage(error: string): (msg: string)
    ensures error == InvalidCredentials ==> msg == InvalidCredentialsText
    ensures error == AlreadyRegistered ==> msg == AlreadyRegisteredText
    ensures error == PasswordTooShort ==> msg == PasswordTooShortText
    ensures error == EmailNotConfirmed ==> msg == EmailNotConfirmedText
    ensures error !in KnownErrors ==> msg == error
  {
    if error == InvalidCredentials then InvalidCredentialsText
    else if error == AlreadyRegistered then AlreadyRegisteredText
    else if error == PasswordTooShort then PasswordTooShortText
    else if error == EmailNotConfirmed then EmailNotConfirmedText
    else error
  }

  /**
   * Translation is exact and stable: a message is changed only when it is one
   * of the four known texts, and translating a shown message again leaves it
   * as it is.
   */
  lemma ErrorMessageExactAndStable(error: string)
    ensures ErrorMessage(error) != error <==> error in KnownErrors
    ensures ErrorMessage(ErrorMessage(error)) == ErrorMessage(error)
  {
  }

  /**
   * Any other text of the same length as a known message (a variant in
   * letter case, say) is not translated: the four known messages have
   * different lengths.
   */
  lemma VariantsNotTranslated(known: string, variant: string)
    requires known in KnownErrors && variant != known && |variant| == |known|
    ensures ErrorMessage(variant) == variant
  {
  }

  /** A known message with extra leading or trailing text (spaces, say) is not translated. */
  lemma PaddedNotTranslated(known: string, pad: string)
    requires known in KnownErrors && pad != ""
    ensures ErrorMessage(pad + known) == pad + known
    ensures ErrorMessage(known + pad) == known + pad
  {
    var lead, trail := pad + known, known + pad;
    assert lead[|pad|] == known[0] && |lead| > |known|;
    assert trail[0] == known[0] && |trail| > |known|;
  }

  datatype LoginState = LoginState(
    isLogin: bool,
    email: string,
    password: string,
    name: string,
    loading: bool,
    error: Option<string>)

  const Initial: LoginState := LoginState(true, "", "", "", false, None)

  /** The form opens in login mode with nothing typed: no error, not loading, and an `Entrar` button. */
  lemma InitialOpensInLoginMode()
    ensures Initial.isLogin && Initial.email == "" && Initial.password == "" && Initial.name == ""
    ensures Initial.error.None? && !Initial.loading
    ensures SubmitCaption(Initial) == "Entrar"
  {
  }

  /** The request `handleAuth` sends: sign-in carries no profile data; sign-up carries the full name. */
  datatype AuthRequest =
    | SignIn(email: string, password: string)
    | SignUp(email: string, password: string, fullName: string)

  /** The start of `handleAuth`. */
  function BeginAuth(s: LoginState): (s': LoginState)
    ensures s'.loading && s'.error.None?
    ensures s'.isLogin == s.isLogin && s'.email == s.email && s'.password == s.password && s'.name == s.name
  {
    s.(loading := true, error := None)
  }

  /** The call `handleAuth` makes in the current mode. */
  function RequestFor(s: LoginState): (r: AuthRequest)
    ensures r.SignIn? <==> s.isLogin
    ensures r.email == s.email && r.password == s.password
    ensures r.SignUp? ==> r.fullName == s.name
  {
    if s.isLogin then SignIn(s.email, s.password) else SignUp(s.email, s.password, s.name)
  }

  /** The end of `handleAuth`, given the error message the service returned, if any. */
  function EndAuth(s: LoginState, failure: Option<string>): (s': LoginState)
    ensures !s'.loading
    ensures failure.None? ==> s'.error == s.error
    ensures failure.Some? ==> s'.error == Some(ErrorMessage(failure.value))
    ensures s'.isLogin == s.isLogin && s'.email == s.email && s'.password == s.password && s'.name == s.name
  {
    match failure
    case None => s.(loading := false)
    case Some(m) => s.(loading := false, error := Some(ErrorMessage(m)))
  }

  /** A whole submission: the request sent and the final state. */
  function HandleAuth(s: LoginState, failure: Option<string>): (out: (AuthRequest, LoginState))
    ensures out.0.SignIn? <==> s.isLogin
    ensures out.0 == RequestFor(s)
    ensures out.1.isLogin == s.isLogin && out.1.email == s.email && out.1.password == s.password && out.1.name == s.name
    ensures !out.1.loading
    ensures failure.None? ==> out.1.error.None?
    ensures failure.Some? ==> out.1.error == Some(ErrorMessage(failure.value))
  {
    var started := BeginAuth(s);
    (RequestFor(started), EndAuth(started, failure))
  }

  /** `handleSocialLogin`: only a failure changes the state, by showing its translated message. */
  function HandleSocialLogin(s: LoginState, failure: Option<string>): (s': LoginState)
    ensures failure.None? ==> s' == s
    ensures failure.Some? ==> s' == s.(error := Some(ErrorMessage(failure.value)))
  {
    match failure
    case None => s
    case Some(m) => s.(error := Some(ErrorMessage(m)))
  }

  /** The "Crear cuenta" / "Inicia sesión" link. */
  function ToggleMode(s: LoginState): (s': LoginState)
    ensures s'.isLogin == !s.isLogin
    ensures s'.(isLogin := s.isLogin) == s
  {
    s.(isLogin := !s.isLogin)
  }

  /** Switching modes twice is no change. */
  lemma ToggleModeTwice(s: LoginState)
    ensures ToggleMode(ToggleMode(s)) == s
  {
  }

  /** The submit button's caption. */
  function SubmitCaption(s: LoginState): (caption: string)
    ensures caption == "Procesando..." <==> s.loading
    ensures !s.loading && s.isLogin ==> caption == "Entrar"
    ensures !s.loading && !s.isLogin ==> caption == "Registrarse"
  {
    if s.loading then "Procesando..." else if s.isLogin then "Entrar" else "Registrarse"
  }
}
