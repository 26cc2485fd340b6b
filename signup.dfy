/** The signup page: a validation chain over the form, account creation with
    its error mapping, the confirm-password field's error flag, and Google
    sign-up. */
module SignupPage {
  import opened Common
  import opened AuthContext

  const PasswordsDiffer := "Passwords do not match"
  const PasswordTooShort := "Password must be at least 6 characters"
  const NameRequired := "Name is required"
  const EmailInUse := "Email already in use"
  const CreateFailed := "Failed to create account"
  const GoogleSignUpFailed := "Failed to sign up with Google"
  const AppRoute := "/app"

  datatype SignupForm = SignupForm(email: string, password: string, confirmPassword: string, displayName: string)

  /** The first check the form fails, in the order the submit makes them:
      matching passwords, then length, then a non-blank name. The e-mail is
      left to the auth provider. */
  function FirstProblem(f: SignupForm): (r: Option<string>)
    ensures r.None? <==> f.password == f.confirmPassword && |f.password| >= 6 && Trim(f.displayName) != ""
    ensures f.password != f.confirmPassword ==> r == Some(PasswordsDiffer)
    ensures f.password == f.confirmPassword && |f.password| < 6 ==> r == Some(PasswordTooShort)
    ensures f.password == f.confirmPassword && |f.password| >= 6 && Trim(f.displayName) == "" ==> r == Some(NameRequired)
  {
    if f.password != f.confirmPassword then Some(PasswordsDiffer)
    else if |f.password| < 6 then Some(PasswordTooShort)
    else if Trim(f.displayName) == "" then Some(NameRequired)
    else None
  }

  /** The confirm field is shown in error while it is non-empty and differs
      from the password. */
  predicate ConfirmFlagged(f: SignupForm) {
    f.password != f.confirmPassword && f.confirmPassword != ""
  }

  /** A flagged form is always refused with the mismatch message; the
      converse fails only for an empty confirm field. */
  lemma FlagMeansMismatch(f: SignupForm)
    ensures ConfirmFlagged(f) ==> FirstProblem(f) == Some(PasswordsDiffer)
    ensures FirstProblem(f) == Some(PasswordsDiffer) ==> ConfirmFlagged(f) || f.confirmPassword == ""
  {
  }

  /** The message a failed signup shows. */
  function SignupError(e: Error): (m: string)
    ensures m == EmailInUse <==> e.code == "auth/email-already-in-use"
    ensures m == EmailInUse || m == CreateFailed
  {
    if e.code == "auth/email-already-in-use" then EmailInUse else CreateFailed
  }

  /** The form's inputs, by their `name` attribute. */
  datatype SignupField = EmailField | PasswordField | ConfirmField | NameField

  /** `{...prev, [name]: value}` */
  function WithField(f: SignupForm, field: SignupField, value: string): SignupForm {
    match field
    case EmailField => f.(email := value)
    case PasswordField => f.(password := value)
    case ConfirmField => f.(confirmPassword := value)
    case NameField => f.(displayName := value)
  }

  /** Typing a password equal to the confirm field clears the confirm
      field's flag, and so does clearing the confirm field. */
  lemma TypingClearsFlag(f: SignupForm, value: string)
    ensures value == f.confirmPassword ==> !ConfirmFlagged(WithField(f, PasswordField, value))
    ensures !ConfirmFlagged(WithField(f, ConfirmField, ""))
    ensures ConfirmFlagged(WithField(f, ConfirmField, value)) <==> value != "" && value != f.password
  {
  }

  datatype SignupView = SignupView(formData: SignupForm, error: string, navigatedTo: Option<string>)

  class Signup {
    const auth: Auth
    var formData: SignupForm
    var error: string
    var navigatedTo: Option<string>

    function View(): SignupView
      reads this
    {
      SignupView(formData, error, navigatedTo)
    }

    constructor (a: Auth)
      ensures auth == a && View() == SignupView(SignupForm("", "", "", ""), "", None)
    {
      auth := a;
      formData := SignupForm("", "", "", "");
      error := "";
      navigatedTo := None;
    }

    /** handleChange: the named input takes the typed value. */
    method HandleChange(field: SignupField, value: string)
      modifies this
      ensures View() == old(View()).(formData := WithField(old(formData), field, value))
    {
      formData := WithField(formData, field, value);
    }

    /** handleSubmit: a form that fails a check shows that check's message
        and makes no call; otherwise the account is created with the
        untrimmed name, success goes to the app and failure shows the mapped
        message (even when the account was already created). */
    method HandleSubmit(uid: string, created: Outcome, profiled: Outcome, stored: Outcome)
      modifies this, auth
      ensures FirstProblem(old(formData)).Some? ==>
                View() == old(View()).(error := FirstProblem(old(formData)).value) && auth.State() == old(auth.State())
      ensures FirstProblem(old(formData)).None? && created.Succeeded? && profiled.Succeeded? && stored.Succeeded? ==>
                View() == old(View()).(error := "", navigatedTo := Some(AppRoute))
                && auth.State() == old(auth.State()).(
                     currentUser := Some(User(uid, old(formData).email, Some(old(formData).displayName))),
                     users := old(auth.users)[uid := UserDoc(Some(old(formData).email), Some(old(formData).displayName))])
      ensures FirstProblem(old(formData)).None? && created.Failed? ==>
                View() == old(View()).(error := SignupError(created.error)) && auth.State() == old(auth.State())
      ensures (FirstProblem(old(formData)).None? && created.Succeeded? && profiled.Failed?) ==>
                View() == old(View()).(error := SignupError(profiled.error))
                && auth.State() == old(auth.State()).(currentUser := Some(User(uid, old(formData).email, None)))
      ensures (FirstProblem(old(formData)).None? && created.Succeeded? && profiled.Succeeded? && stored.Failed?) ==>
                View() == old(View()).(error := SignupError(stored.error))
                && auth.State() == old(auth.State()).(
                     currentUser := Some(User(uid, old(formData).email, Some(old(formData).displayName))))
      ensures navigatedTo != old(navigatedTo) ==> FirstProblem(old(formData)).None? && auth.currentUser.Some?
    {
      var problem := FirstProblem(formData);
      if problem.Some? {
        error := problem.value;
        return;
      }
      error := "";
      var r := auth.Signup(formData.email, formData.displayName, uid, created, profiled, stored);
      if r.Failed? {
        error := SignupError(r.error);
        return;
      }
      navigatedTo := Some(AppRoute);
    }

    /** handleGoogleSignUp: any failure shows one message. */
    method HandleGoogleSignUp(account: User, popup: Outcome, stored: Outcome)
      modifies this, auth
      ensures popup.Succeeded? && stored.Succeeded? ==>
                View() == old(View()).(error := "", navigatedTo := Some(AppRoute))
                && auth.State() == old(auth.State()).(currentUser := Some(account),
                                                      users := old(auth.users)[account.uid := UserDoc(Some(account.email), account.displayName)])
      ensures popup.Failed? ==> View() == old(View()).(error := GoogleSignUpFailed) && auth.State() == old(auth.State())
      ensures popup.Succeeded? && stored.Failed? ==>
                View() == old(View()).(error := GoogleSignUpFailed)
                && auth.State() == old(auth.State()).(currentUser := Some(account))
    {
      error := "";
      var r := auth.LoginWithGoogle(account, popup, stored);
      if r.Failed? {
        error := GoogleSignUpFailed;
        return;
      }
      navigatedTo := Some(AppRoute);
    }
  }
}
