/** The profile page: updating the display name, the e-mail and the
    password; revealing the password only after re-authentication; and the
    Alt-key shortcuts that open the dialogs. */
module ProfilePage {
  import opened Common
  import opened AuthContext

  const NameUpdated := "Name updated successfully!"
  const NameFallback := "Failed to update name"
  /** The page reads `updateUserEmail` from the auth context, which does not
      provide it, so every e-mail update throws this TypeError inside its
      try block. */
  const EmailUpdateMissing := "updateUserEmail is not a function"
  const PasswordUpdated := "Password updated successfully!"
  const PasswordFallback := "Failed to update password"
  const PasswordsDiffer := "Passwords do not match"
  const WrongPassword := "Incorrect password. Please try again."
  /** What the password line shows while the password is hidden. */
  const Mask := "••••••••"

  /** `error.message || fallback` */
  function MessageOr(e: Error, fallback: string): string {
    if e.message != "" then e.message else fallback
  }

  /** A key press with Alt held opens the dialog the key names. */
  datatype Shortcut = OpenName | OpenEmail | OpenPassword | OpenTour | NoShortcut

  function ShortcutFor(altKey: bool, key: string): (s: Shortcut)
    ensures !altKey ==> s == NoShortcut
    ensures s != NoShortcut ==> key in {"n", "e", "p", "h"}
  {
    if !altKey then NoShortcut
    else if key == "n" then OpenName
    else if key == "e" then OpenEmail
    else if key == "p" then OpenPassword
    else if key == "h" then OpenTour
    else NoShortcut
  }

  /** The password dialog's two fields. */
  datatype Passwords = Passwords(newPassword: string, confirmPassword: string)

  datatype ProfileView = ProfileView(
    openNameDialog: bool,
    openEmailDialog: bool,
    openPasswordDialog: bool,
    showTour: bool,
    error: string,
    success: string,
    newDisplayName: string,
    newEmail: string,
    passwords: Passwords,
    showPassword: bool,
    currentPassword: string,
    openAuthDialog: bool,
    authPassword: string)

  class Profile {
    const auth: Auth
    var openNameDialog: bool
    var openEmailDialog: bool
    var openPasswordDialog: bool
    var showTour: bool
    var error: string
    var success: string
    var newDisplayName: string
    var newEmail: string
    var passwords: Passwords
    var showPassword: bool
    /** The password the user re-authenticated with, "" until then. */
    var currentPassword: string
    var openAuthDialog: bool
    var authPassword: string

    function View(): ProfileView
      reads this
    {
      ProfileView(openNameDialog, openEmailDialog, openPasswordDialog, showTour, error, success,
                  newDisplayName, newEmail, passwords,
                  showPassword, currentPassword, openAuthDialog, authPassword)
    }

    /** The text of the password line. */
    function PasswordText(): (t: string)
      reads this
      ensures !showPassword ==> t == Mask
      ensures showPassword ==> t == currentPassword
    {
      if showPassword then currentPassword else Mask
    }

    /** The name field starts with the user's display name, or "". */
    constructor (a: Auth)
      ensures auth == a
      ensures View() == ProfileView(false, false, false, false, "", "",
                                    if a.currentUser.Some? && a.currentUser.value.displayName.Some?
                                    then a.currentUser.value.displayName.value else "",
                                    "", Passwords("", ""), false, "", false, "")
    {
      auth := a;
      openNameDialog, openEmailDialog, openPasswordDialog, showTour := false, false, false, false;
      error, success := "", "";
      newDisplayName := if a.currentUser.Some? && a.currentUser.value.displayName.Some?
                        then a.currentUser.value.displayName.value else "";
      newEmail, passwords := "", Passwords("", "");
      showPassword, currentPassword := false, "";
      openAuthDialog, authPassword := false, "";
    }

    /** The keydown listener. */
    method KeyPress(altKey: bool, key: string)
      modifies this
      ensures ShortcutFor(altKey, key) == OpenName ==> View() == old(View()).(openNameDialog := true)
      ensures ShortcutFor(altKey, key) == OpenEmail ==> View() == old(View()).(openEmailDialog := true)
      ensures ShortcutFor(altKey, key) == OpenPassword ==> View() == old(View()).(openPasswordDialog := true)
      ensures ShortcutFor(altKey, key) == OpenTour ==> View() == old(View()).(showTour := true)
      ensures ShortcutFor(altKey, key) == NoShortcut ==> View() == old(View())
    {
      match ShortcutFor(altKey, key)
      case OpenName => openNameDialog := true;
      case OpenEmail => openEmailDialog := true;
      case OpenPassword => openPasswordDialog := true;
      case OpenTour => showTour := true;
      case NoShortcut =>
    }

    /** handleNameUpdate: a blank name does nothing; otherwise the trimmed
        name goes to updateUserProfile. */
    method HandleNameUpdate(profiled: Outcome, stored: Outcome)
      modifies this, auth
      ensures Trim(old(newDisplayName)) == "" ==> View() == old(View()) && auth.State() == old(auth.State())
      ensures Trim(old(newDisplayName)) != "" ==>
                var name := Trim(old(newDisplayName));
                (old(auth.currentUser).None? ==>
                   View() == old(View()).(error := NoUser.message, success := "") && auth.State() == old(auth.State()))
                && (old(auth.currentUser).Some? && profiled.Failed? ==>
                      View() == old(View()).(error := MessageOr(profiled.error, NameFallback), success := "")
                      && auth.State() == old(auth.State()))
                && (old(auth.currentUser).Some? && profiled.Succeeded? && stored.Failed? ==>
                      View() == old(View()).(error := MessageOr(stored.error, NameFallback), success := "")
                      && auth.State() == old(auth.State()))
                && (old(auth.currentUser).Some? && profiled.Succeeded? && stored.Succeeded? ==>
                      var uid := old(auth.currentUser).value.uid;
                      var doc := if uid in old(auth.users) then old(auth.users)[uid].(displayName := Some(name))
                                 else UserDoc(None, Some(name));
                      View() == old(View()).(error := "", success := NameUpdated, openNameDialog := false)
                      && auth.State() == old(auth.State()).(
                           currentUser := Some(old(auth.currentUser).value.(displayName := Some(name))),
                           users := old(auth.users)[uid := doc]))
    {
      var name := Trim(newDisplayName);
      if name == "" {
        return;
      }
      error, success := "", "";
      var r := auth.UpdateUserProfile(ProfileUpdate(Some(name)), profiled, stored);
      if r.Failed? {
        error := MessageOr(r.error, NameFallback);
        return;
      }
      success := NameUpdated;
      openNameDialog := false;
    }

    /** handleEmailUpdate: an empty field does nothing; otherwise the call
        throws and its message is shown. No e-mail is ever changed. */
    method HandleEmailUpdate()
      modifies this
      ensures old(newEmail) == "" ==> View() == old(View())
      ensures old(newEmail) != "" ==> View() == old(View()).(error := EmailUpdateMissing, success := "")
    {
      if newEmail == "" {
        return;
      }
      error, success := "", "";
      error := MessageOr(Error("", EmailUpdateMissing), "Failed to update email");
    }

    /** handlePasswordUpdate: differing fields are refused with a message;
        otherwise updateUserPassword, and on success the fields are emptied
        and the dialog closed. The length is left to the auth provider. */
    method HandlePasswordUpdate(updated: Outcome)
      modifies this
      ensures old(passwords.newPassword != passwords.confirmPassword) ==> View() == old(View()).(error := PasswordsDiffer)
      ensures old(passwords.newPassword == passwords.confirmPassword) && auth.currentUser.None? ==>
                View() == old(View()).(error := NoUser.message, success := "")
      ensures old(passwords.newPassword == passwords.confirmPassword) && auth.currentUser.Some? && updated.Failed? ==>
                View() == old(View()).(error := MessageOr(updated.error, PasswordFallback), success := "")
      ensures old(passwords.newPassword == passwords.confirmPassword) && auth.currentUser.Some? && updated.Succeeded? ==>
                View() == old(View()).(error := "", success := PasswordUpdated, openPasswordDialog := false,
                                       passwords := Passwords("", ""))
    {
      if passwords.newPassword != passwords.confirmPassword {
        error := PasswordsDiffer;
      } else {
        var r := auth.UpdateUserPassword(updated);
        if r.Failed? {
          error, success := MessageOr(r.error, PasswordFallback), "";
        } else {
          error, success, openPasswordDialog := "", PasswordUpdated, false;
          passwords := Passwords("", "");
        }
      }
    }

    /** handlePasswordVisibility: showing the password before anyone has
        re-authenticated opens the re-authentication dialog instead; every
        other press toggles. */
    method HandlePasswordVisibility()
      modifies this
      ensures !old(showPassword) && old(currentPassword) == "" ==> View() == old(View()).(openAuthDialog := true)
      ensures old(showPassword) || old(currentPassword) != "" ==> View() == old(View()).(showPassword := !old(showPassword))
      // the password is never revealed by this button alone before re-authentication
      ensures showPassword && !old(showPassword) ==> currentPassword != ""
    {
      if !showPassword && currentPassword == "" {
        openAuthDialog := true;
      } else {
        showPassword := !showPassword;
      }
    }

    /** handleAuthSubmit: re-authenticating with the typed password; success
        keeps that password, reveals it and closes the dialog. */
    method HandleAuthSubmit(reauthenticated: Outcome)
      modifies this
      ensures reauthenticated.Failed? ==> View() == old(View()).(error := WrongPassword)
      ensures reauthenticated.Succeeded? ==>
                View() == old(View()).(error := "", currentPassword := old(authPassword), showPassword := true,
                                       openAuthDialog := false, authPassword := "")
      ensures showPassword && !old(showPassword) ==> reauthenticated.Succeeded? && PasswordText() == old(authPassword)
    {
      error := "";
      if reauthenticated.Failed? {
        error := WrongPassword;
        return;
      }
      currentPassword := authPassword;
      showPassword := true;
      openAuthDialog := false;
      authPassword := "";
    }
  }
}
