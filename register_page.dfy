/** The sign-up form of src/pages/Register.tsx: its field rules and the error toast. */
module RegisterPage {
  import opened Wrappers
  import opened Text
  import opened FormRules
  import opened Browser

  /**
   * The four registered fields and the "agree-terms" checkbox, which
   * react-hook-form does not see but the browser requires to be ticked.
   */
  datatype RegisterForm = RegisterForm(
    name: string, email: string, password: string, confirmPassword: string, agreedToTerms: bool)

  /** The name field: required, at least 2 UTF-16 code units. */
  function NameError(v: string): (r: Option<string>)
    ensures r.None? <==> Utf16Length(v) >= 2
    ensures v == "" ==> r == Some("Nome é obrigatório")
    ensures Utf16Length(v) == 1 ==> r == Some("Nome deve ter pelo menos 2 caracteres")
  {
    MinLengthError(v, 2, "Nome é obrigatório", "Nome deve ter pelo menos 2 caracteres")
  }

  /** A name of one character outside the Basic Multilingual Plane already has length 2. */
  lemma AstralNamePasses(c: char)
    requires (c as int) >= 0x1_0000
    ensures NameError([c]).None?
  {
    assert [c][..0] == [];
  }

  /** The messages shown under the four fields, in form order. */
  function Errors(f: RegisterForm): (msgs: seq<string>)
    ensures msgs == [] <==>
      Utf16Length(f.name) >= 2 && IsValidEmail(f.email) && Utf16Length(f.password) >= 6 &&
      f.confirmPassword == f.password
  {
    var rs := [NameError(f.name), EmailError(f.email), PasswordError(f.password, PasswordRequired),
               ConfirmError(f.confirmPassword, f.password)];
    assert rs[0] == NameError(f.name) && rs[1] == EmailError(f.email);
    assert rs[2] == PasswordError(f.password, PasswordRequired) && rs[3] == ConfirmError(f.confirmPassword, f.password);
    Failures(rs)
  }

  /**
   * Whether `onSubmit` runs: the browser withholds the submit event while the
   * required checkbox is unticked, and `handleSubmit` then runs the rules.
   */
  predicate Submits(f: RegisterForm)
  {
    f.agreedToTerms && Errors(f) == []
  }

  /** The form is submitted exactly when the terms are accepted and every rule holds. */
  lemma SubmitsExactlyWhenValid(f: RegisterForm)
    ensures Submits(f) <==>
      f.agreedToTerms && Utf16Length(f.name) >= 2 && IsValidEmail(f.email) &&
      Utf16Length(f.password) >= 6 && f.confirmPassword == f.password
  {
  }

  /** With the box unticked nothing is submitted, however the fields are filled. */
  lemma UntickedTermsBlockSubmit(f: RegisterForm)
    requires !f.agreedToTerms
    ensures !Submits(f)
  {
  }

  /** The toast text after a failed sign-up, when the API gives no message. */
  const FailureFallback := "Erro ao criar conta"

  /**
   * `onSubmit` given how `registerUser` ended: `None` when it returned,
   * otherwise the error's API message (`None` when it carries none). Success
   * toasts and goes to the dashboard; failure toasts the API message or the
   * fallback text and stays. The `finally` clause clears the loading flag.
   */
  function Submit(failure: Option<Option<string>>): (r: Submission)
    ensures !r.loading
    ensures r.navigateTo.Some? <==> failure.None?
    ensures failure.None? ==> r.navigateTo == Some("/dashboard") && r.toast == SuccessToast("Conta criada com sucesso!")
    ensures failure.Some? ==> r.toast == ErrorToast(FallbackText(failure.value, FailureFallback))
    ensures failure.Some? ==> r.toast.ErrorToast? && r.toast.text != ""
  {
    match failure
    case None => Submission(SuccessToast("Conta criada com sucesso!"), Some("/dashboard"), false)
    case Some(message) => Submission(ErrorToast(FallbackText(message, FailureFallback)), None, false)
  }
}
