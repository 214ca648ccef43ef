/**
 * The profile page of src/pages/Profile.tsx: one form holding the personal
 * data and, while the password section is open, the password-change fields;
 * the reset that follows the signed-in user; the two submit handlers.
 */
module ProfilePage {
  import opened Wrappers
  import opened Text
  import opened FormRules
  import opened Browser
  import AuthContext

  datatype ProfileForm = ProfileForm(
    name: string,
    email: string,
    currentPassword: string,
    newPassword: string,
    confirmPassword: string)

  /** The name field: `required` only. */
  function NameError(v: string): (r: Option<string>)
    ensures r.None? <==> v != ""
    ensures r.Some? ==> r.value == "Nome é obrigatório"
  {
    RequiredError(v, "Nome é obrigatório")
  }

  /** The current-password field: `required` only. */
  function CurrentPasswordError(v: string): (r: Option<string>)
    ensures r.None? <==> v != ""
    ensures r.Some? ==> r.value == "Senha atual é obrigatória"
  {
    RequiredError(v, "Senha atual é obrigatória")
  }

  /**
   * The messages of every shown field, in page order. The three password
   * fields are only on the page while the password section is open.
   */
  function Errors(f: ProfileForm, passwordSectionOpen: bool): (msgs: seq<string>)
    ensures msgs == [] <==>
      f.name != "" && IsValidEmail(f.email) &&
      (passwordSectionOpen ==>
        f.currentPassword != "" && Utf16Length(f.newPassword) >= 6 && f.confirmPassword == f.newPassword)
  {
    var personal := [NameError(f.name), EmailError(f.email)];
    var password := [CurrentPasswordError(f.currentPassword), PasswordError(f.newPassword, "Nova senha é obrigatória"),
                     ConfirmError(f.confirmPassword, f.newPassword)];
    var rs := if passwordSectionOpen then personal + password else personal;
    assert rs[0] == NameError(f.name) && rs[1] == EmailError(f.email);
    assert passwordSectionOpen ==>
      rs[2] == password[0] && rs[3] == password[1] && rs[4] == password[2];
    Failures(rs)
  }

  /** What the page holds besides the signed-in user. */
  datatype PageState = PageState(form: ProfileForm, isLoading: bool, showPasswordForm: bool)

  /** The form values taken from a user: name and email, everything else empty. */
  function FormFor(user: Option<AuthContext.User>): (f: ProfileForm)
    ensures user.Some? ==> f.name == user.value.name && f.email == user.value.email
    ensures user.None? ==> f.name == "" && f.email == ""
    ensures f.currentPassword == "" && f.newPassword == "" && f.confirmPassword == ""
  {
    match user
    case None => ProfileForm("", "", "", "", "")
    case Some(u) => ProfileForm(u.name, u.email, "", "", "")
  }

  /** The first render: default values from the user, nothing loading, password section closed. */
  function Initial(user: Option<AuthContext.User>): (s: PageState)
    ensures s.form == FormFor(user) && !s.isLoading && !s.showPasswordForm
  {
    PageState(FormFor(user), false, false)
  }

  /**
   * The effect run when the user changes: with a user the whole form is
   * reset to its name and email (the password fields lose their values);
   * without one nothing happens.
   */
  function Reset(s: PageState, user: Option<AuthContext.User>): (r: PageState)
    ensures user.None? ==> r == s
    ensures user.Some? ==> r.form == FormFor(user)
    ensures r.isLoading == s.isLoading && r.showPasswordForm == s.showPasswordForm
  {
    if user.Some? then s.(form := FormFor(user)) else s
  }

  /** The "Alterar Senha" / "Cancelar" button. */
  function TogglePasswordForm(s: PageState): (r: PageState)
    ensures r.showPasswordForm != s.showPasswordForm
    ensures r.form == s.form && r.isLoading == s.isLoading
  {
    s.(showPasswordForm := !s.showPasswordForm)
  }

  /** The name and email handed to `updateProfile`. */
  datatype ProfileUpdate = ProfileUpdate(name: string, email: string)

  /** The outcome of one press of a submit button. */
  datatype Outcome = Outcome(state: PageState, toast: Option<Toast>, errors: seq<string>, update: Option<ProfileUpdate>)

  /**
   * Submitting the personal-data form. Invalid fields stop the handler before
   * it runs. Otherwise `updateProfile` receives the name and email (it cannot
   * fail), the success toast is shown, the password section is closed and
   * loading ends.
   */
  function SubmitProfile(s: PageState): (r: Outcome)
    ensures r.errors == Errors(s.form, s.showPasswordForm)
    ensures r.errors != [] ==> r.state == s && r.toast.None? && r.update.None?
    ensures r.errors == [] ==>
      r.state == s.(isLoading := false, showPasswordForm := false) &&
      r.toast == Some(SuccessToast("Perfil atualizado com sucesso!")) &&
      r.update == Some(ProfileUpdate(s.form.name, s.form.email))
  {
    var errs := Errors(s.form, s.showPasswordForm);
    if errs != [] then Outcome(s, None, errs, None)
    else Outcome(s.(isLoading := false, showPasswordForm := false),
                 Some(SuccessToast("Perfil atualizado com sucesso!")), [],
                 Some(ProfileUpdate(s.form.name, s.form.email)))
  }

  /**
   * Submitting the password form. After validation the handler compares the
   * two new passwords itself: a mismatch shows the error toast and returns
   * before the loading flag is touched. Otherwise the (simulated) change
   * succeeds, the section closes and loading ends.
   */
  function SubmitPassword(s: PageState): (r: Outcome)
    ensures r.errors == Errors(s.form, s.showPasswordForm)
    ensures r.update.None?
    ensures r.errors != [] ==> r.state == s && r.toast.None?
    ensures r.errors == [] && s.form.newPassword != s.form.confirmPassword ==>
      r.state == s && r.toast == Some(ErrorToast(PasswordsDiffer))
    ensures r.errors == [] && s.form.newPassword == s.form.confirmPassword ==>
      r.state == s.(isLoading := false, showPasswordForm := false) &&
      r.toast == Some(SuccessToast("Senha alterada com sucesso!"))
  {
    var errs := Errors(s.form, s.showPasswordForm);
    if errs != [] then Outcome(s, None, errs, None)
    else if s.form.newPassword != s.form.confirmPassword then
      Outcome(s, Some(ErrorToast(PasswordsDiffer)), [], None)
    else Outcome(s.(isLoading := false, showPasswordForm := false),
                 Some(SuccessToast("Senha alterada com sucesso!")), [], None)
  }

  /**
   * The handler's own mismatch check can only fire from the password form
   * when it is open: there the confirmation rule has already rejected any
   * mismatch, so a submitted password change always succeeds.
   */
  lemma OpenPasswordFormNeverMismatches(s: PageState)
    requires s.showPasswordForm
    ensures SubmitPassword(s).toast != Some(ErrorToast(PasswordsDiffer))
    ensures SubmitPassword(s).errors == [] ==>
      SubmitPassword(s).toast == Some(SuccessToast("Senha alterada com sucesso!"))
  {
  }

  /**
   * Right after a reset to a signed-in user the personal data is accepted
   * exactly when that user's name is non-empty and its email well formed.
   */
  lemma ResetFormAcceptedIffUserValid(s: PageState, u: AuthContext.User)
    ensures Errors(Reset(s, Some(u)).form, false) == [] <==> u.name != "" && IsValidEmail(u.email)
  {
  }

  /**
   * A saved profile reaches the signed-in user: after `updateProfile` the
   * user carries the submitted name and email, which pass the page's own
   * rules, and keeps its id and credits.
   */
  lemma SavedProfileReachesUser(s: PageState, auth: AuthContext.Session)
    requires auth.user.Some?
    requires SubmitProfile(s).errors == []
    ensures var r := SubmitProfile(s);
      var u := AuthContext.UpdateProfile(auth, Some(r.update.value.name), Some(r.update.value.email)).user.value;
      u.name == s.form.name && u.email == s.form.email && u.name != "" && IsValidEmail(u.email) &&
      u.id == auth.user.value.id && u.credits == auth.user.value.credits
  {
  }
}
