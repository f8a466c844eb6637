/**
 * The Login screen's decisions: the blank-field guards in front of the
 * sign-in and password-reset calls, the alert chosen for a sign-in error code,
 * and the reset reply that does not depend on the outcome. The authentication
 * service itself is outside the model; its outcome is an input.
 */
module Login {
  import opened Wrappers
  import opened Alerts
  import JsString

  /** What the authentication service answered. */
  datatype AuthResult = Succeeded | Failed(code: string)

  /** What pressing "Entrar" does: show an alert, or call sign-in with these arguments. */
  datatype LoginStep = LoginBlocked(alert: Alert) | SignIn(email: string, password: string)

  /** What pressing "Esqueci minha senha" does: show an alert, or request a reset e-mail. */
  datatype ResetStep = ResetBlocked(alert: Alert) | SendReset(email: string)

  const EmptyFieldsAlert: Alert := Alert("Campos Vazios", "Por favor, preencha o e-mail e a senha.")

  const InvalidCredentialAlert: Alert :=
    Alert("Erro de Login", "E-mail ou senha inválidos. Por favor, verifique seus dados e tente novamente.")

  const InvalidEmailAlert: Alert := Alert("Formato Inválido", "O formato do e-mail digitado não é válido.")

  const GenericErrorAlert: Alert := Alert("Erro", "Ocorreu um erro inesperado ao tentar fazer o login.")

  const EmailRequiredAlert: Alert :=
    Alert("E-mail Necessário",
      "Por favor, digite seu endereço de e-mail no campo correspondente para redefinir a senha.")

  const CheckEmailAlert: Alert :=
    Alert("Verifique seu E-mail",
      "Se existir uma conta com este e-mail, um link para redefinição de senha foi enviado.")

  /**
   * `handleLogin`'s guard: a field that is blank after trimming blocks the
   * sign-in; otherwise sign-in receives the fields as typed, untrimmed.
   */
  function HandleLogin(email: string, password: string): (r: LoginStep)
    ensures r.LoginBlocked? <==> JsString.IsBlank(email) || JsString.IsBlank(password)
    ensures r.LoginBlocked? ==> r.alert == EmptyFieldsAlert
    ensures r.SignIn? ==> r.email == email && r.password == password
  {
    if JsString.IsBlank(email) || JsString.IsBlank(password) then LoginBlocked(EmptyFieldsAlert)
    else SignIn(email, password)
  }

  /** The alert shown for a sign-in error code. */
  function SignInErrorAlert(code: string): (a: Alert)
    ensures code == "auth/invalid-credential" ==> a.title == "Erro de Login"
    ensures code == "auth/invalid-email" ==> a.title == "Formato Inválido"
    ensures code != "auth/invalid-credential" && code != "auth/invalid-email" ==> a.title == "Erro"
  {
    if code == "auth/invalid-credential" then InvalidCredentialAlert
    else if code == "auth/invalid-email" then InvalidEmailAlert
    else GenericErrorAlert
  }

  /** What follows the sign-in call: nothing on success, the error's alert on failure. */
  function SignInReply(result: AuthResult): (a: Option<Alert>)
    ensures a.None? <==> result.Succeeded?
    ensures result.Failed? ==> a == Some(SignInErrorAlert(result.code))
  {
    match result
    case Succeeded => None
    case Failed(code) => Some(SignInErrorAlert(code))
  }

  /** `handleForgotPassword`'s guard: a blank e-mail blocks the reset request. */
  function HandleForgotPassword(email: string): (r: ResetStep)
    ensures r.ResetBlocked? <==> JsString.IsBlank(email)
    ensures r.ResetBlocked? ==> r.alert == EmailRequiredAlert
    ensures r.SendReset? ==> r.email == email
  {
    if JsString.IsBlank(email) then ResetBlocked(EmailRequiredAlert) else SendReset(email)
  }

  /** The alert shown once the reset call settles, whichever way it settles. */
  function ResetReply(result: AuthResult): Alert {
    match result
    case Succeeded => CheckEmailAlert
    case Failed(_) => CheckEmailAlert
  }

  /** The reset reply reveals nothing: success and every failure show the same alert. */
  lemma ResetReplyUniform(a: AuthResult, b: AuthResult)
    ensures ResetReply(a) == ResetReply(b)
  {
  }

  /** A field is blank, and blocks the call, exactly when every character is white space. */
  lemma LoginBlockedIffWhitespace(email: string, password: string)
    ensures HandleLogin(email, password).LoginBlocked? <==>
      (forall i :: 0 <= i < |email| ==> JsString.IsJsWhitespace(email[i]))
      || (forall i :: 0 <= i < |password| ==> JsString.IsJsWhitespace(password[i]))
  {
    JsString.BlankIffAllWhitespace(email);
    JsString.BlankIffAllWhitespace(password);
  }

  /**
   * A field with one character that is not white space passes the guard, and
   * sign-in receives it as typed, surrounding white space included.
   */
  lemma UntrimmedCredentials(email: string, password: string, i: nat, j: nat)
    requires i < |email| && !JsString.IsJsWhitespace(email[i])
    requires j < |password| && !JsString.IsJsWhitespace(password[j])
    ensures HandleLogin(email, password) == SignIn(email, password)
  {
    JsString.BlankIffAllWhitespace(email);
    JsString.BlankIffAllWhitespace(password);
  }

  /** A field of spaces alone is blank and blocks the sign-in. */
  lemma SpacesOnlyBlocked()
    ensures HandleLogin("   ", "segredo") == LoginBlocked(EmptyFieldsAlert)
  {
    JsString.BlankIffAllWhitespace("   ");
  }
}
