/** The login page: the remembered e-mail prefilled on mount, e-mail and
    password sign-in with the remember-me choice, and Google sign-in. */
module LoginPage {
  import opened Common
  import opened AuthContext

  const InvalidCredentials := "Invalid email or password"
  const SignInFailed := "Failed to sign in"
  const GoogleSignInFailed := "Failed to sign in with Google."
  const AppRoute := "/app"

  /** The message a failed sign-in shows: only the invalid-credential code
      gets its own. */
  function LoginError(e: Error): (m: string)
    ensures m == InvalidCredentials <==> e.code == "auth/invalid-credential"
    ensures m == InvalidCredentials || m == SignInFailed
  {
    if e.code == "auth/invalid-credential" then InvalidCredentials else SignInFailed
  }

  /** The page's own state fields; `navigatedTo` is the route the page sent
      the browser to, if any. */
  datatype LoginView = LoginView(
    email: string,
    password: string,
    rememberMe: bool,
    error: string,
    navigatedTo: Option<string>)

  class Login {
    const auth: Auth
    var email: string
    var password: string
    var rememberMe: bool
    var error: string
    var navigatedTo: Option<string>

    function View(): LoginView
      reads this
    {
      LoginView(email, password, rememberMe, error, navigatedTo)
    }

    /** Mounting the page runs the prefill effect on local storage. */
    constructor (a: Auth)
      ensures auth == a
      ensures Prefill(a.storage).Some? ==> View() == LoginView(Prefill(a.storage).value, "", true, "", None)
      ensures Prefill(a.storage).None? ==> View() == LoginView("", "", false, "", None)
    {
      auth := a;
      password := "";
      error := "";
      navigatedTo := None;
      var remembered := Prefill(a.storage);
      if remembered.Some? {
        email := remembered.value;
        rememberMe := true;
      } else {
        email := "";
        rememberMe := false;
      }
    }

    /** handleSubmit: sign in with the form's e-mail, password and choice;
        success goes to the app, a failure shows its mapped message. */
    method HandleSubmit(account: User, signedIn: Outcome)
      modifies this, auth
      ensures signedIn.Succeeded? ==>
                View() == old(View()).(error := "", navigatedTo := Some(AppRoute))
                && auth.State() == old(auth.State()).(currentUser := Some(account),
                                                      storage := Remembered(old(auth.storage), old(email), old(rememberMe)))
      ensures signedIn.Failed? ==>
                View() == old(View()).(error := LoginError(signedIn.error)) && auth.State() == old(auth.State())
      // what the next visit prefills follows the choice made here
      ensures signedIn.Succeeded? && old(rememberMe) && old(email) != "" ==> Prefill(auth.storage) == Some(old(email))
      ensures signedIn.Succeeded? && !old(rememberMe) ==> Prefill(auth.storage) == None
    {
      error := "";
      var r := auth.Login(email, rememberMe, account, signedIn);
      if r.Failed? {
        error := LoginError(r.error);
        return;
      }
      RememberRoundTrip(old(auth.storage), email, rememberMe);
      navigatedTo := Some(AppRoute);
    }

    /** handleGoogleSignIn: any failure shows one message. */
    method HandleGoogleSignIn(account: User, popup: Outcome, stored: Outcome)
      modifies this, auth
      ensures popup.Succeeded? && stored.Succeeded? ==>
                View() == old(View()).(error := "", navigatedTo := Some(AppRoute))
                && auth.State() == old(auth.State()).(currentUser := Some(account),
                                                      users := old(auth.users)[account.uid := UserDoc(Some(account.email), account.displayName)])
      ensures popup.Failed? ==> View() == old(View()).(error := GoogleSignInFailed) && auth.State() == old(auth.State())
      ensures popup.Succeeded? && stored.Failed? ==>
                View() == old(View()).(error := GoogleSignInFailed)
                && auth.State() == old(auth.State()).(currentUser := Some(account))
    {
      error := "";
      var r := auth.LoginWithGoogle(account, popup, stored);
      if r.Failed? {
        error := GoogleSignInFailed;
        return;
      }
      navigatedTo := Some(AppRoute);
    }
  }
}
