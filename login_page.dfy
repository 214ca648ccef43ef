/**
 * The sign-in page of src/pages/Login.tsx: its field rules, the choice of the
 * error text after a failed sign-in, the backend connection probe and the
 * loading flag around a submission.
 */
module LoginPage {
  import opened Wrappers
  import opened Text
  import opened FormRules
  import opened Browser

  datatype LoginForm = LoginForm(email: string, password: string)

  /** The messages under the two fields, in form order. */
  function Errors(f: LoginForm): (msgs: seq<string>)
    ensures msgs == [] <==> IsValidEmail(f.email) && Utf16Length(f.password) >= 6
  {
    var rs := [EmailError(f.email), PasswordError(f.password, PasswordRequired)];
    assert rs[0] == EmailError(f.email) && rs[1] == PasswordError(f.password, PasswordRequired);
    Failures(rs)
  }

  /** The parts of a thrown request error that the page looks at. */
  datatype RequestError = RequestError(
    message: Option<string>,       // error.message
    dataMessage: Option<string>,   // error.response.data.message
    dataError: Option<string>,     // error.response.data.error
    code: Option<string>,          // error.code
    status: Option<int>)           // error.response.status

  /** JavaScript truthiness of an optional string. */
  predicate Truthy(s: Option<string>) { s.Some? && s.value != "" }

  const NetworkText := "Erro de conexão. Verifique se o backend está rodando na porta 5000."
  const DefaultText := "Erro ao fazer login"

  /** The toast text after a failed sign-in: the first truthy source in a fixed order. */
  function ErrorMessage(e: RequestError): (r: string)
    ensures r != ""
    ensures Truthy(e.message) ==> r == e.message.value
    ensures !Truthy(e.message) && Truthy(e.dataMessage) ==> r == e.dataMessage.value
    ensures !Truthy(e.message) && !Truthy(e.dataMessage) && Truthy(e.dataError) ==> r == e.dataError.value
    ensures !Truthy(e.message) && !Truthy(e.dataMessage) && !Truthy(e.dataError) ==>
      r == (if e.code == Some("ERR_NETWORK") then NetworkText else DefaultText)
  {
    if Truthy(e.message) then e.message.value
    else if Truthy(e.dataMessage) then e.dataMessage.value
    else if Truthy(e.dataError) then e.dataError.value
    else if e.code == Some("ERR_NETWORK") then NetworkText
    else DefaultText
  }

  /** The outcome of the connection probe: `None` when the request succeeded. */
  function ConnectionToast(failure: Option<RequestError>): (t: Toast)
    ensures t.SuccessToast? <==>
      failure.None? || (failure.value.code != Some("ERR_NETWORK") && failure.value.status == Some(401))
  {
    match failure
    case None => SuccessToast("\U{2705} Backend conectado com sucesso!")
    case Some(e) =>
      if e.code == Some("ERR_NETWORK") then ErrorToast("\U{274C} Backend não está rodando na porta 5000")
      else if e.status == Some(401) then SuccessToast("\U{2705} Backend conectado (token necessário)")
      else ErrorToast("\U{274C} Erro de conexão: " + e.message.GetOr("undefined"))
  }

  /**
   * `onSubmit` given how the sign-in call ended (`None` when it returned).
   * The `finally` clause clears the loading flag on both paths.
   */
  function Submit(failure: Option<RequestError>): (r: Submission)
    ensures !r.loading
    ensures r.navigateTo.Some? <==> failure.None?
    ensures failure.None? ==> r.navigateTo == Some("/dashboard") && r.toast.SuccessToast?
    ensures failure.Some? ==> r.toast == ErrorToast(ErrorMessage(failure.value))
  {
    match failure
    case None => Submission(SuccessToast("Login realizado com sucesso!"), Some("/dashboard"), false)
    case Some(e) => Submission(ErrorToast(ErrorMessage(e)), None, false)
  }
}
